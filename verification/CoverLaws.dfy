/** What the merged interval of any output part holds, chunks or not: the parts of the
    document its pieces come from, each once, and nothing else. */
module CoverLaws {
  import opened Common
  import opened Chunking
  import opened GroupingLaws
  import opened MdLayout
  import opened OrderLaws
  import opened PackingLaws
  import opened SourceMapLaws
  import opened TextLines

  /** A piece made from the i-th part, whole or a chunk of it. */
  ghost predicate From(cfg: Config, kept: seq<PartValue>, p: PartValue, i: int) {
    0 <= i < |kept| && p in Expand(cfg, kept[i])
  }

  ghost predicate FromSome(cfg: Config, kept: seq<PartValue>, p: PartValue, a: int, b: int) {
    exists i :: a <= i <= b && From(cfg, kept, p, i)
  }

  ghost predicate Used(cfg: Config, kept: seq<PartValue>, pieces: seq<Piece>, i: int) {
    exists k :: 0 <= k < |pieces| && From(cfg, kept, pieces[k].part, i)
  }

  /** The pieces come from parts a to b, and from each of them. */
  ghost predicate MadeFrom(cfg: Config, kept: seq<PartValue>, pieces: seq<Piece>, a: int, b: int) {
    && 0 <= a <= b < |kept|
    && (forall k :: 0 <= k < |pieces| ==> FromSome(cfg, kept, pieces[k].part, a, b))
    && (forall i :: a <= i <= b ==> Used(cfg, kept, pieces, i))
  }

  lemma FromSameLines(cfg: Config, kept: seq<PartValue>, p: PartValue, i: int)
    requires From(cfg, kept, p, i)
    ensures p.lines == kept[i].lines
  {
    hide Expand;
    ExpandKeepsLines(cfg, kept[i]);
  }

  // ----- Where the parts are -----

  /** Parts one after the other, each with an interval. */
  ghost predicate InRow(kept: seq<PartValue>) {
    && (forall i :: 0 <= i < |kept| ==> HasLines(kept[i]))
    && (forall i :: 0 < i < |kept| ==> Adjacent(kept[i - 1], kept[i]))
  }

  predicate HasLines(p: PartValue) {
    p.lines.Some? && 0 <= p.lines.value.first < p.lines.value.last
  }

  lemma {:induction false} InRowRises(kept: seq<PartValue>, i: nat, j: nat)
    requires InRow(kept) && i < j < |kept|
    ensures HasLines(kept[i]) && HasLines(kept[j]) && kept[i].lines.value.last < kept[j].lines.value.first
    decreases j
  {
    hide Adjacent, HasLines;
    assert HasLines(kept[i]) && HasLines(kept[j - 1]) && HasLines(kept[j]) && Adjacent(kept[j - 1], kept[j]);
    if i < j - 1 {
      InRowRises(kept, i, j - 1);
    }
    RowStep(kept[j - 1], kept[j]);
  }

  lemma RowStep(p: PartValue, q: PartValue)
    requires HasLines(p) && HasLines(q) && Adjacent(p, q)
    ensures p.lines.value.last < q.lines.value.first && p.lines.value.first < p.lines.value.last
  {
  }

  /** A step of the output moves on by one part, or not at all, or back. */
  lemma NextIsNear(kept: seq<PartValue>, i: nat, j: nat)
    requires InRow(kept) && i < |kept| && j < |kept| && OnOrBack(kept[i], kept[j])
    ensures j <= i + 1
  {
    assert HasLines(kept[i]) && HasLines(kept[j]);
    if i + 1 < j {
      assert Adjacent(kept[i], kept[i + 1]) && HasLines(kept[i + 1]);
      InRowRises(kept, i + 1, j);
    }
  }

  lemma EarlierIsBefore(kept: seq<PartValue>, i: nat, j: nat)
    requires InRow(kept) && i < |kept| && j < |kept| && Key(kept[i]) <= Key(kept[j])
    ensures i <= j
  {
    if j < i {
      InRowRises(kept, j, i);
    }
  }

  // ----- The pieces of one output part -----

  /** Pieces of parts in a row that start with the earliest and never skip a part. */
  ghost predicate Wanders(cfg: Config, kept: seq<PartValue>, pieces: seq<Piece>) {
    && (forall k :: 0 <= k < |pieces| ==> FromSome(cfg, kept, pieces[k].part, 0, |kept| - 1))
    && (forall k :: 0 <= k < |pieces| ==> Key(pieces[0].part) <= Key(pieces[k].part))
    && (forall k :: 0 < k < |pieces| ==> OnOrBack(pieces[k - 1].part, pieces[k].part))
  }

  /** The parts from a to b are those the pieces come from, and the interval is theirs. */
  ghost predicate Covers(cfg: Config, kept: seq<PartValue>, pieces: seq<Piece>, a: int, b: int) {
    && MadeFrom(cfg, kept, pieces, a, b) && kept[a].lines.Some? && kept[b].lines.Some?
    && RunLines(pieces) == Some(Span(kept[a].lines.value.first, kept[b].lines.value.last))
  }

  lemma {:induction false} WanderingCovers(cfg: Config, kept: seq<PartValue>, pieces: seq<Piece>)
    returns (a: nat, b: nat)
    requires pieces != [] && InRow(kept) && Wanders(cfg, kept, pieces)
    ensures Covers(cfg, kept, pieces, a, b) && From(cfg, kept, pieces[0].part, a)
  {
    hide From, Key, OnOrBack, InRow, RunLines, MadeFrom;
    var p := Last(pieces).part;
    RunUnfolds(pieces);
    var j :| 0 <= j < |kept| && From(cfg, kept, p, j);
    if |pieces| == 1 {
      a, b := j, j;
      OneCovers(cfg, kept, pieces, j);
    } else {
      var init := pieces[..|pieces| - 1];
      var q := Last(init).part;
      assert Wanders(cfg, kept, init);
      a, b := WanderingCovers(cfg, kept, init);
      assert OnOrBack(pieces[|pieces| - 2].part, pieces[|pieces| - 1].part);
      var i := LastSource(cfg, kept, init, a, b);
      NextSource(cfg, kept, q, i, p, j);
      FirstSource(cfg, kept, pieces[0].part, a, p, j);
      assert init + [Last(pieces)] == pieces;
      OneMoreCovers(cfg, kept, init, Last(pieces), a, b, j);
      b := if j <= b then b else j;
    }
  }

  lemma LastSource(cfg: Config, kept: seq<PartValue>, pieces: seq<Piece>, a: int, b: int) returns (i: nat)
    requires pieces != [] && MadeFrom(cfg, kept, pieces, a, b)
    ensures a <= i <= b && From(cfg, kept, Last(pieces).part, i)
  {
    hide From;
    assert FromSome(cfg, kept, pieces[|pieces| - 1].part, a, b);
    i :| a <= i <= b && From(cfg, kept, Last(pieces).part, i);
  }

  lemma NextSource(cfg: Config, kept: seq<PartValue>, q: PartValue, i: nat, p: PartValue, j: nat)
    requires InRow(kept) && From(cfg, kept, q, i) && From(cfg, kept, p, j) && OnOrBack(q, p)
    ensures j <= i + 1
  {
    hide Expand, InRow, OnOrBack;
    FromSameLines(cfg, kept, q, i);
    FromSameLines(cfg, kept, p, j);
    SameLines(q, p, kept[i], kept[j]);
    NextIsNear(kept, i, j);
  }

  lemma FirstSource(cfg: Config, kept: seq<PartValue>, q: PartValue, i: nat, p: PartValue, j: nat)
    requires InRow(kept) && From(cfg, kept, q, i) && From(cfg, kept, p, j) && Key(q) <= Key(p)
    ensures i <= j
  {
    hide Expand, InRow;
    FromSameLines(cfg, kept, q, i);
    FromSameLines(cfg, kept, p, j);
    EarlierIsBefore(kept, i, j);
  }

  lemma {:induction false} OneCovers(cfg: Config, kept: seq<PartValue>, pieces: seq<Piece>, j: nat)
    requires |pieces| == 1 && InRow(kept) && From(cfg, kept, pieces[0].part, j)
    requires RunLines(pieces) == pieces[0].part.lines
    ensures Covers(cfg, kept, pieces, j, j)
  {
    FromSameLines(cfg, kept, pieces[0].part, j);
    hide From, RunLines;
    assert HasLines(kept[j]);
  }

  lemma {:induction false} OneMoreCovers(cfg: Config, kept: seq<PartValue>, pieces: seq<Piece>, last: Piece, a: nat, b: nat, j: nat)
    requires pieces != [] && InRow(kept) && Covers(cfg, kept, pieces, a, b)
    requires From(cfg, kept, last.part, j) && a <= j <= b + 1
    requires RunLines(pieces + [last]) == MergeLines(RunLines(pieces), last.part.lines)
    ensures Covers(cfg, kept, pieces + [last], a, if j <= b then b else j)
  {
    FromSameLines(cfg, kept, last.part, j);
    OneMoreSource(cfg, kept, pieces, last, a, b, j);
    hide From, MadeFrom, RunLines;
    SpansMerge(kept, a, b, j);
  }

  lemma SpansMerge(kept: seq<PartValue>, a: nat, b: nat, j: nat)
    requires InRow(kept) && a <= b < |kept| && a <= j < |kept|
    ensures HasLines(kept[a]) && HasLines(kept[b]) && HasLines(kept[j])
    ensures MergeLines(Some(Span(kept[a].lines.value.first, kept[b].lines.value.last)), kept[j].lines)
         == Some(Span(kept[a].lines.value.first, kept[if j <= b then b else j].lines.value.last))
  {
    hide Adjacent;
    assert HasLines(kept[a]) && HasLines(kept[b]) && HasLines(kept[j]);
    if a < j {
      InRowRises(kept, a, j);
    }
    if j < b {
      InRowRises(kept, j, b);
    }
    if b < j {
      InRowRises(kept, b, j);
    }
  }

  lemma OneMoreSource(cfg: Config, kept: seq<PartValue>, pieces: seq<Piece>, last: Piece, a: nat, b: nat, j: nat)
    requires MadeFrom(cfg, kept, pieces, a, b) && From(cfg, kept, last.part, j) && a <= j <= b + 1
    ensures MadeFrom(cfg, kept, pieces + [last], a, if j <= b then b else j)
  {
    assert j < |kept|;
    hide From;
    var all, c := pieces + [last], if j <= b then b else j;
    forall k | 0 <= k < |all|
      ensures FromSome(cfg, kept, all[k].part, a, c)
    {
      if k < |pieces| {
        assert FromSome(cfg, kept, pieces[k].part, a, b);
      }
    }
    forall i | a <= i <= c
      ensures Used(cfg, kept, all, i)
    {
      if i <= b {
        assert Used(cfg, kept, pieces, i);
        var k :| 0 <= k < |pieces| && From(cfg, kept, pieces[k].part, i);
        assert From(cfg, kept, all[k].part, i);
      } else {
        assert From(cfg, kept, all[|pieces|].part, i);
      }
    }
  }

  // ----- Every output part -----

  /** Expanding makes up no pieces. */
  lemma {:induction false} ExpandedFrom(cfg: Config, kept: seq<PartValue>, items: seq<PartValue>)
    requires forall p <- items :: p in kept
    ensures forall q <- ExpandAll(cfg, items) :: FromSome(cfg, kept, q, 0, |kept| - 1)
  {
    if items != [] {
      hide Expand, ExpandAll;
      var init, p := items[..|items| - 1], Last(items);
      assert forall q <- init :: q in items;
      ExpandedFrom(cfg, kept, init);
      ExpandLast(cfg, items);
      assert p in items;
      var i :| 0 <= i < |kept| && kept[i] == p;
      assert forall q <- Expand(cfg, p) :: From(cfg, kept, q, i);
    }
  }

  lemma {:induction false} PiecesFrom(cfg: Config, parts: seq<PartValue>)
    ensures forall q <- PartsOf(RunsPieces(Rechunk(cfg, parts))) :: FromSome(cfg, Kept(parts), q, 0, |Kept(parts)| - 1)
  {
    hide ExpandAll, Items, PackedRuns, MergeTitles, PartsOf, RunsPieces, Kept, FromSome;
    var groups := GroupParts(parts).groups;
    PackedPieces(cfg, MergeTitles(groups, 0));
    MergeTitlesKeepsItems(groups, 0);
    assert groups[0..] == groups;
    ItemsAreKept(parts);
    ExpandedFrom(cfg, Kept(parts), Items(groups));
  }

  lemma {:induction false} OutputWanders(cfg: Config, parts: seq<PartValue>, k: nat)
    requires InPlace(Kept(parts)) && k < |Rechunk(cfg, parts)|
    ensures Rechunk(cfg, parts)[k].pieces != [] && Wanders(cfg, Kept(parts), Rechunk(cfg, parts)[k].pieces)
  {
    hide Rechunk, OnOrBack, Key, Kept, RunsPieces, PartsOf, InPlace, FromSome;
    var runs := Rechunk(cfg, parts);
    var pieces := runs[k].pieces;
    RunsStartFirst(cfg, parts);
    assert FirstLeast(runs[k]);
    PiecesGoOnOrBack(cfg, parts);
    PiecesFrom(cfg, parts);
    var off := RunIsSlice(runs, k);
    PartsOfRun(RunsPieces(runs), pieces, off);
    var all := PartsOf(RunsPieces(runs));
    assert forall i :: 0 <= i < |pieces| ==> all[off + i] == pieces[i].part && pieces[i] in pieces;
    forall i | 0 < i < |pieces|
      ensures OnOrBack(pieces[i - 1].part, pieces[i].part)
    {
      assert all[off + i - 1] == pieces[i - 1].part;
    }
  }

  lemma KeptInRow(body: seq<string>, pos: nat, kept: seq<PartValue>)
    requires LaidOut(body, pos, kept)
    ensures InRow(kept)
  {
    hide Lines, Adjacent;
    forall i | 0 <= i < |kept|
      ensures HasLines(kept[i])
    {
      assert OnLines(body, kept[i]);
    }
  }

  /** The parts from a to b as one text, joined by blank lines. */
  function Joined(kept: seq<PartValue>, a: nat, b: nat): string
    requires a <= b < |kept|
  {
    RunText(Tag(kept[a..b + 1], 0))
  }

  lemma RowText(body: seq<string>, pos: nat, kept: seq<PartValue>, a: nat, b: nat)
    requires LaidOut(body, pos, kept) && a <= b < |kept|
    ensures kept[a].lines.Some? && kept[b].lines.Some?
    ensures var first, last := kept[a].lines.value.first, kept[b].lines.value.last;
            0 <= first < last < |body| && JoinLines(body[first..last]) == Joined(kept, a, b)
  {
    hide OnLines, Adjacent, JoinLines, RunText, RunLines;
    var pieces := Tag(kept[a..b + 1], 0);
    assert forall i :: 0 <= i < |pieces| ==> pieces[i].part == kept[a + i];
    RunTextOnPage(body, pieces);
  }

  /** For every clean document and every output part: its merged interval holds exactly the
      parts of the document that its pieces come from, each once and whole, however often
      they were repeated and into how many chunks they were split. */
  lemma IntervalHoldsSources(cfg: Config, doc: seq<DocPart>, k: nat) returns (a: nat, b: nat)
    requires Clean(doc) && k < |Rechunk(cfg, LayOut(doc).parts)|
    ensures var l := LayOut(doc);
            var run := Rechunk(cfg, l.parts)[k];
            && run.pieces != [] && MadeFrom(cfg, Kept(l.parts), run.pieces, a, b)
            && Render(run).lines.Some? && Slice(l.md, Render(run).lines.value) == Joined(Kept(l.parts), a, b)
  {
    hide Rechunk, LayOut, RunText, RunLines, Kept, LaidOut, MadeFrom, Wanders, Lines, JoinLines, Joined;
    var l := LayOut(doc);
    var body := LayoutIsGood(doc);
    var kept := Kept(l.parts);
    KeptInPlace(body, l.pos, kept);
    KeptInRow(body, l.pos, kept);
    OutputWanders(cfg, l.parts, k);
    var pieces := Rechunk(cfg, l.parts)[k].pieces;
    a, b := WanderingCovers(cfg, kept, pieces);
    SourcesInBounds(cfg, kept, pieces, a, b);
    RowText(body, l.pos, kept, a, b);
    var s := RunLines(pieces).value;
    assert Lines(l.md)[s.first..s.last] == body[s.first..s.last];
  }

  lemma SourcesInBounds(cfg: Config, kept: seq<PartValue>, pieces: seq<Piece>, a: int, b: int)
    requires MadeFrom(cfg, kept, pieces, a, b)
    ensures 0 <= a <= b < |kept|
  {
  }
}
