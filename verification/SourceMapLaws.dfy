/** The round trip from an output part's merged line interval back to its text, across
    building the markdown and chunking: exactly when it holds. */
module SourceMapLaws {
  import opened Common
  import opened Splitter
  import opened Chunking
  import opened GroupingLaws
  import opened HeadingLaws
  import opened MdLayout
  import opened OrderLaws
  import opened PackingLaws
  import opened TextLines

  /** Parts that are not chunks lie on their lines, neighbours on neighbouring ones. */
  ghost predicate OnPage(ls: seq<string>, items: seq<PartValue>) {
    && (forall i :: 0 <= i < |items| && !items[i].splitted ==> OnLines(ls, items[i]))
    && (forall i :: 0 < i < |items| && !items[i - 1].splitted && !items[i].splitted ==>
          Adjacent(items[i - 1], items[i]))
  }

  lemma {:induction false} ExpandOnPage(cfg: Config, ls: seq<string>, pos: nat, kept: seq<PartValue>)
    requires AllContent(kept)
    requires forall i :: 0 <= i < |kept| ==> OnLines(ls, kept[i])
    requires forall i :: 0 < i < |kept| ==> Adjacent(kept[i - 1], kept[i])
    ensures OnPage(ls, ExpandAll(cfg, kept))
    ensures kept != [] ==>
              && ExpandAll(cfg, kept) != []
              && (!Last(ExpandAll(cfg, kept)).splitted ==> Last(ExpandAll(cfg, kept)) == Last(kept))
  {
    if kept != [] {
      var init, p := kept[..|kept| - 1], Last(kept);
      ExpandOnPage(cfg, ls, pos, init);
      ExpandNonEmpty(cfg, p);
      var before, added := ExpandAll(cfg, init), Expand(cfg, p);
      hide Split;
      assert added == [p] || forall i :: 0 <= i < |added| ==> added[i].splitted;
      hide Expand, OnLines, ExpandAll;
      OnPageJoins(ls, before, added);
    }
  }

  lemma OnPageJoins(ls: seq<string>, a: seq<PartValue>, b: seq<PartValue>)
    requires OnPage(ls, a) && OnPage(ls, b)
    requires a != [] && b != [] && !Last(a).splitted && !b[0].splitted ==> Adjacent(Last(a), b[0])
    ensures OnPage(ls, a + b)
  {
    hide OnLines, Adjacent;
  }

  /** The pieces of one run are neighbours in the sequence of all pieces. */
  lemma {:induction false} RunIsSlice(runs: seq<Run>, k: nat) returns (off: nat)
    requires k < |runs|
    ensures off + |runs[k].pieces| <= |RunsPieces(runs)|
    ensures RunsPieces(runs)[off..off + |runs[k].pieces|] == runs[k].pieces
  {
    if k == 0 {
      off := 0;
    } else {
      var o := RunIsSlice(runs[1..], k - 1);
      off := |runs[0].pieces| + o;
    }
  }

  /** Neighbouring unsplit parts: their joined text is what their merged interval holds. */
  lemma {:induction false} RunTextOnPage(ls: seq<string>, pieces: seq<Piece>)
    requires pieces != []
    requires forall i :: 0 <= i < |pieces| ==> OnLines(ls, pieces[i].part)
    requires forall i :: 0 < i < |pieces| ==> Adjacent(pieces[i - 1].part, pieces[i].part)
    ensures pieces[0].part.lines.Some? && Last(pieces).part.lines.Some?
    ensures var first, last := pieces[0].part.lines.value.first, Last(pieces).part.lines.value.last;
            && RunLines(pieces) == Some(Span(first, last))
            && 0 <= first < last < |ls|
            && JoinLines(ls[first..last]) == RunText(pieces)
  {
    hide Lines, JoinLines, RunText, RunLines;
    var last := Last(pieces).part;
    assert OnLines(ls, pieces[0].part) && OnLines(ls, last);
    JoinLinesOfText(last.content);
    RunUnfolds(pieces);
    if |pieces| > 1 {
      var init := pieces[..|pieces| - 1];
      RunTextOnPage(ls, init);
      var a, b, c := pieces[0].part.lines.value.first, Last(init).part.lines.value.last, last.lines.value.last;
      assert OnLines(ls, Last(init).part) && Adjacent(Last(init).part, last);
      JoinBlocks(ls, a, b, c);
    }
  }

  lemma RunUnfolds(pieces: seq<Piece>)
    requires pieces != []
    ensures |pieces| == 1 ==> RunText(pieces) == Last(pieces).part.content && RunLines(pieces) == Last(pieces).part.lines
    ensures |pieces| > 1 ==>
              var init := pieces[..|pieces| - 1];
              && RunText(pieces) == RunText(init) + "\n\n" + Last(pieces).part.content
              && RunLines(pieces) == MergeLines(RunLines(init), Last(pieces).part.lines)
  {
    if |pieces| == 1 {
      assert RunLines(pieces[..0]) == None;
    }
  }

  /** Two blocks of lines with a blank one between them. */
  lemma JoinBlocks(ls: seq<string>, a: nat, b: nat, c: nat)
    requires a < b && b + 1 < c <= |ls| && ls[b] == ""
    ensures JoinLines(ls[a..c]) == JoinLines(ls[a..b]) + "\n\n" + JoinLines(ls[b + 1..c])
  {
    assert ls[a..c] == ls[a..b] + ([""] + ls[b + 1..c]);
    JoinLinesAppend(ls[a..b], [""] + ls[b + 1..c]);
    JoinLinesAppend([""], ls[b + 1..c]);
    assert JoinLines([""]) == "";
    assert "\n" + ("" + "\n" + JoinLines(ls[b + 1..c])) == "\n\n" + JoinLines(ls[b + 1..c]);
  }

  lemma {:induction false} ExpandedOnLines(cfg: Config, ls: seq<string>, items: seq<PartValue>)
    requires forall p <- items :: OnLines(ls, p)
    ensures forall q <- ExpandAll(cfg, items) :: !q.splitted ==> OnLines(ls, q)
  {
    hide OnLines, Split;
    if items != [] {
      var init, p := items[..|items| - 1], Last(items);
      assert forall q <- init :: q in items;
      ExpandedOnLines(cfg, ls, init);
      assert p in items;
      var added := Expand(cfg, p);
      assert added == [p] || forall i :: 0 <= i < |added| ==> added[i].splitted;
    }
  }

  /** Every piece of every run that is no chunk lies on its lines. */
  lemma PiecesOnLines(cfg: Config, l: Layout, body: seq<string>)
    requires GoodLayout(l, body)
    ensures forall q <- PartsOf(RunsPieces(Rechunk(cfg, l.parts))) :: !q.splitted ==> OnLines(body, q)
  {
    hide OnLines, Lines, ExpandAll, Items, PackedRuns, MergeTitles, PartsOf, RunsPieces, Kept;
    var groups := GroupParts(l.parts).groups;
    PackedPieces(cfg, MergeTitles(groups, 0));
    MergeTitlesKeepsItems(groups, 0);
    assert groups[0..] == groups;
    ItemsAreKept(l.parts);
    ExpandedOnLines(cfg, body, Items(groups));
  }

  lemma PartsOfRun(all: seq<Piece>, pieces: seq<Piece>, off: nat)
    requires off + |pieces| <= |all| && all[off..off + |pieces|] == pieces
    ensures forall i :: 0 <= i < |pieces| ==> pieces[i].part in PartsOf(all)
  {
    forall i | 0 <= i < |pieces|
      ensures pieces[i].part in PartsOf(all)
    {
      assert PartsOf(all)[off + i] == pieces[i].part;
    }
  }

  lemma PiecesOnPage(ls: seq<string>, all: seq<PartValue>, pieces: seq<Piece>, off: nat)
    requires OnPage(ls, all) && off + |pieces| <= |all|
    requires forall i :: 0 <= i < |pieces| ==> pieces[i].part == all[off + i] && !pieces[i].part.splitted
    ensures forall i :: 0 < i < |pieces| ==> Adjacent(pieces[i - 1].part, pieces[i].part)
  {
    hide OnLines, Adjacent;
    forall i | 0 < i < |pieces|
      ensures Adjacent(pieces[i - 1].part, pieces[i].part)
    {
      assert all[off + i - 1] == pieces[i - 1].part;
    }
  }

  // ----- The exact condition -----

  /** Characters of the lines, each with a line break. */
  function Weight(ls: seq<string>): nat {
    if ls == [] then 0 else |ls[0]| + 1 + Weight(ls[1..])
  }

  lemma {:induction false} WeightJoin(a: seq<string>, b: seq<string>)
    ensures Weight(a + b) == Weight(a) + Weight(b)
  {
    if a == [] {
      assert a + b == b;
    } else {
      assert (a + b)[1..] == a[1..] + b;
      WeightJoin(a[1..], b);
    }
  }

  lemma {:induction false} WeightBounds(ls: seq<string>)
    ensures |ls| <= Weight(ls)
    ensures ls != [] ==> |JoinLines(ls)| + 1 == Weight(ls)
  {
    if ls != [] {
      WeightBounds(ls[1..]);
    }
  }

  /** The weight of lines a up to but not including b. */
  function Stretch(ls: seq<string>, a: int, b: int): nat {
    if 0 <= a <= b <= |ls| then Weight(ls[a..b]) else 0
  }

  lemma StretchSplits(ls: seq<string>, a: int, b: int, c: int)
    requires 0 <= a <= b <= c <= |ls|
    ensures Stretch(ls, a, c) == Stretch(ls, a, b) + Stretch(ls, b, c)
    ensures Stretch(ls, a, b) >= b - a
  {
    assert ls[a..c] == ls[a..b] + ls[b..c];
    WeightJoin(ls[a..b], ls[b..c]);
    WeightBounds(ls[a..b]);
  }

  /** With a blank line after it, a text is two characters shorter than its stretch. */
  lemma StretchOfText(ls: seq<string>, a: int, b: int)
    requires 0 <= a < b < |ls| && ls[b] == ""
    ensures Stretch(ls, a, b + 1) == |JoinLines(ls[a..b])| + 2
  {
    StretchSplits(ls, a, b, b + 1);
    WeightBounds(ls[a..b]);
    assert ls[b..b + 1] == [""];
    assert Weight([""]) == 1 + Weight([""][1..]) == 1;
  }

  lemma StretchOfPart(ls: seq<string>, p: PartValue)
    requires OnLines(ls, p)
    ensures p.lines.Some?
    ensures var s := p.lines.value;
            0 <= s.first < s.last < |ls| && ls[s.last] == "" && Stretch(ls, s.first, s.last + 1) == |p.content| + 2
  {
    hide Lines, Stretch, JoinLines;
    JoinLinesOfText(p.content);
    StretchOfText(ls, p.lines.value.first, p.lines.value.last);
  }

  ghost predicate Neighbours(pieces: seq<Piece>) {
    forall i :: 0 < i < |pieces| ==> Adjacent(pieces[i - 1].part, pieces[i].part)
  }

  /** The pieces lie on the page and go on or back, not before the first. */
  ghost predicate Wandering(ls: seq<string>, pieces: seq<Piece>) {
    && pieces != []
    && (forall i :: 0 <= i < |pieces| ==> OnLines(ls, pieces[i].part) && Key(pieces[0].part) <= Key(pieces[i].part))
    && (forall i :: 0 < i < |pieces| ==> OnOrBack(pieces[i - 1].part, pieces[i].part))
  }

  /** The merged interval of pieces that start with the earliest, and that their text is at
      least as long as the interval, longer when they are not all neighbours. */
  ghost predicate Outgrows(ls: seq<string>, pieces: seq<Piece>) {
    && pieces != [] && RunLines(pieces).Some? && Last(pieces).part.lines.Some?
    && var s := RunLines(pieces).value;
       && s.first == Key(pieces[0].part) && 0 <= s.first < s.last < |ls| && ls[s.last] == ""
       && Last(pieces).part.lines.value.last <= s.last
       && |RunText(pieces)| + 2 >= Stretch(ls, s.first, s.last + 1)
       && (!Neighbours(pieces) ==> |RunText(pieces)| + 2 > Stretch(ls, s.first, s.last + 1))
  }

  lemma {:induction false} WanderingOutgrows(ls: seq<string>, pieces: seq<Piece>)
    requires Wandering(ls, pieces)
    ensures Outgrows(ls, pieces)
  {
    hide OnLines, OnOrBack, RunText, RunLines, Stretch, Outgrows, Key;
    var p := Last(pieces).part;
    assert OnLines(ls, p);
    StretchOfPart(ls, p);
    if |pieces| == 1 {
      OneOutgrows(ls, pieces);
    } else {
      WanderingInit(ls, pieces);
      WanderingOutgrows(ls, pieces[..|pieces| - 1]);
      OneMoreOutgrows(ls, pieces);
    }
  }

  lemma WanderingInit(ls: seq<string>, pieces: seq<Piece>)
    requires Wandering(ls, pieces) && |pieces| > 1
    ensures Wandering(ls, pieces[..|pieces| - 1])
    ensures OnLines(ls, pieces[|pieces| - 2].part) && OnLines(ls, Last(pieces).part)
    ensures OnOrBack(pieces[|pieces| - 2].part, Last(pieces).part) && Key(pieces[0].part) <= Key(Last(pieces).part)
  {
    hide OnLines, OnOrBack, Key;
  }

  lemma OneOutgrows(ls: seq<string>, pieces: seq<Piece>)
    requires |pieces| == 1 && OnLines(ls, pieces[0].part)
    ensures Outgrows(ls, pieces)
  {
    hide OnLines, Stretch, RunText, RunLines, Adjacent;
    StretchOfPart(ls, pieces[0].part);
    RunUnfolds(pieces);
  }

  lemma NeighboursSnoc(pieces: seq<Piece>)
    requires |pieces| > 1
    ensures Neighbours(pieces) <==>
            Neighbours(pieces[..|pieces| - 1]) && Adjacent(pieces[|pieces| - 2].part, Last(pieces).part)
  {
    hide Adjacent;
    var init := pieces[..|pieces| - 1];
    if Neighbours(init) && Adjacent(pieces[|pieces| - 2].part, Last(pieces).part) {
      forall i | 0 < i < |pieces|
        ensures Adjacent(pieces[i - 1].part, pieces[i].part)
      {
        assert i < |init| ==> Adjacent(init[i - 1].part, init[i].part);
      }
    }
    if Neighbours(pieces) {
      forall i | 0 < i < |init|
        ensures Adjacent(init[i - 1].part, init[i].part)
      {
        assert Adjacent(pieces[i - 1].part, pieces[i].part);
      }
    }
  }

  lemma OneMoreOutgrows(ls: seq<string>, pieces: seq<Piece>)
    requires |pieces| > 1 && Outgrows(ls, pieces[..|pieces| - 1])
    requires OnLines(ls, pieces[|pieces| - 2].part) && OnLines(ls, Last(pieces).part)
    requires OnOrBack(pieces[|pieces| - 2].part, Last(pieces).part) && Key(pieces[0].part) <= Key(Last(pieces).part)
    ensures Outgrows(ls, pieces)
  {
    hide OnLines, RunText, RunLines, Stretch, Neighbours;
    var init := pieces[..|pieces| - 1];
    var q, p := Last(init).part, Last(pieces).part;
    StretchOfPart(ls, q);
    StretchOfPart(ls, p);
    RunUnfolds(pieces);
    NeighboursSnoc(pieces);
    var s, t := RunLines(init).value, p.lines.value;
    assert init[0] == pieces[0];
    StretchGrows(ls, s.first, s.last + 1, t.first, t.last + 1);
  }

  /** Adding a stretch that starts no later than the covered one ends covers both; it adds
      more than the new lines when it starts earlier. */
  lemma StretchGrows(ls: seq<string>, a: int, b: int, c: int, d: int)
    requires 0 <= a <= c <= b <= |ls| && a <= b && c < d <= |ls|
    ensures var e := Max(b, d);
            && Stretch(ls, a, b) + Stretch(ls, c, d) >= Stretch(ls, a, e)
            && (c < b ==> Stretch(ls, a, b) + Stretch(ls, c, d) > Stretch(ls, a, e))
  {
    hide Stretch;
    StretchSplits(ls, c, d, d);
    if d > b {
      StretchSplits(ls, a, b, d);
      StretchSplits(ls, c, b, d);
    }
  }

  // ----- The round trip -----

  /** The lines that the output part's merged interval names are exactly its text. */
  ghost predicate RoundTrips(md: string, run: Run)
    requires run.pieces != []
  {
    var out := Render(run);
    out.lines.Some? && Slice(md, out.lines.value) == out.content
  }

  /** None of the pieces is a chunk of a split part. */
  predicate Unsplit(pieces: seq<Piece>) {
    forall i :: 0 <= i < |pieces| ==> !pieces[i].part.splitted
  }

  lemma KeptInPlace(body: seq<string>, pos: nat, kept: seq<PartValue>)
    requires LaidOut(body, pos, kept)
    ensures InPlace(kept)
  {
    hide Lines;
    forall i | 0 < i < |kept|
      ensures Adjacent(kept[i - 1], kept[i]) && Key(kept[i - 1]) < Key(kept[i])
    {
      assert OnLines(body, kept[i - 1]) && OnLines(body, kept[i]);
    }
  }

  lemma RunWanders(cfg: Config, l: Layout, body: seq<string>, k: nat)
    requires GoodLayout(l, body) && k < |Rechunk(cfg, l.parts)|
    requires Unsplit(Rechunk(cfg, l.parts)[k].pieces)
    ensures Wandering(body, Rechunk(cfg, l.parts)[k].pieces)
  {
    hide Rechunk, OnLines, OnOrBack, Key, Lines, Kept, RunsPieces, PartsOf, InPlace, LaidOut;
    var runs := Rechunk(cfg, l.parts);
    var pieces := runs[k].pieces;
    KeptInPlace(body, l.pos, Kept(l.parts));
    RunsStartFirst(cfg, l.parts);
    assert FirstLeast(runs[k]);
    PiecesGoOnOrBack(cfg, l.parts);
    PiecesOnLines(cfg, l, body);
    var off := RunIsSlice(runs, k);
    PartsOfRun(RunsPieces(runs), pieces, off);
    var all := PartsOf(RunsPieces(runs));
    forall i | 0 <= i < |pieces|
      ensures OnLines(body, pieces[i].part) && Key(pieces[0].part) <= Key(pieces[i].part)
    {
      assert pieces[i] in pieces;
    }
    forall i | 0 < i < |pieces|
      ensures OnOrBack(pieces[i - 1].part, pieces[i].part)
    {
      assert all[off + i - 1] == pieces[i - 1].part && all[off + i] == pieces[i].part;
    }
  }

  /** For every clean document and every output part without chunks: its merged interval
      gives back exactly its text if and only if its pieces are neighbours in the markdown,
      none of them repeated; and all of them are when no FAQ entry directly follows a part
      with content that is not one. */
  lemma {:induction false} SourceMapRoundTrip(cfg: Config, doc: seq<DocPart>, k: nat)
    requires Clean(doc) && k < |Rechunk(cfg, LayOut(doc).parts)|
    requires Unsplit(Rechunk(cfg, LayOut(doc).parts)[k].pieces)
    ensures var run := Rechunk(cfg, LayOut(doc).parts)[k];
            && run.pieces != []
            && (RoundTrips(LayOut(doc).md, run) <==> Neighbours(run.pieces))
            && (NoFaqAfterText(Kept(LayOut(doc).parts)) ==> Neighbours(run.pieces))
  {
    hide Rechunk, LayOut, RunText, RunLines, Kept, NoFaqAfterText, Neighbours, OnLines, Slice, Wandering, GoodLayout;
    var l := LayOut(doc);
    var run := Rechunk(cfg, l.parts)[k];
    var body := LayoutIsGood(doc);
    RunWanders(cfg, l, body, k);
    WanderingHasPieces(body, run.pieces);
    if NoFaqAfterText(Kept(l.parts)) {
      NeighboursWithoutRepeats(cfg, l, body, k);
    }
    RoundTripOfRun(l, body, run);
  }

  lemma WanderingHasPieces(ls: seq<string>, pieces: seq<Piece>)
    requires Wandering(ls, pieces)
    ensures pieces != []
  {
  }

  lemma RoundTripOfRun(l: Layout, body: seq<string>, run: Run)
    requires GoodLayout(l, body) && Wandering(body, run.pieces)
    ensures RoundTrips(l.md, run) <==> Neighbours(run.pieces)
  {
    hide RunText, RunLines, Lines, JoinLines, OnLines, Adjacent, OnOrBack, Key, LaidOut, Stretch;
    var pieces := run.pieces;
    WanderingOutgrows(body, pieces);
    if Neighbours(pieces) {
      RunTextOnPage(body, pieces);
    }
    var s := RunLines(pieces).value;
    StretchOfText(body, s.first, s.last);
    assert Lines(l.md)[s.first..s.last] == body[s.first..s.last];
  }

  lemma NeighboursWithoutRepeats(cfg: Config, l: Layout, body: seq<string>, k: nat)
    requires GoodLayout(l, body) && NoFaqAfterText(Kept(l.parts)) && k < |Rechunk(cfg, l.parts)|
    requires Unsplit(Rechunk(cfg, l.parts)[k].pieces)
    ensures Neighbours(Rechunk(cfg, l.parts)[k].pieces)
  {
    hide Rechunk, ExpandAll, Kept, RunsPieces, PartsOf, OnLines, Adjacent, Lines, NoFaqAfterText;
    var runs := Rechunk(cfg, l.parts);
    var pieces := runs[k].pieces;
    KeptIsContent(l.parts);
    ExpandOnPage(cfg, body, l.pos, Kept(l.parts));
    RechunkConserves(cfg, l.parts);
    var off := RunIsSlice(runs, k);
    var all := PartsOf(RunsPieces(runs));
    assert forall i :: 0 <= i < |pieces| ==> pieces[i].part == all[off + i];
    PiecesOnPage(body, all, pieces, off);
  }

  /** A heading alone and a FAQ entry, laid out and packed into one part: its text has
      the heading twice, while its interval holds the heading once. */
  lemma RepeatedTextBreaksRoundTrip(cfg: Config, title: PartValue, faq: PartValue)
    requires title.content != "" && !title.faq && TitleLevel(title) > 0
    requires faq.content != "" && faq.faq
    requires RStrip(title.content) == title.content && RStrip(faq.content) == faq.content
    requires 2 * Tokens(cfg, title) + Tokens(cfg, faq) <= cfg.size
    ensures var l := LayOut([DocPart(title, false), DocPart(faq, false)]);
            var runs := Rechunk(cfg, l.parts);
            && |runs| == 1 && runs[0].pieces != []
            && var out := Render(runs[0]);
               && out.content == title.content + "\n\n" + title.content + "\n\n" + faq.content
               && out.lines.Some? && Slice(l.md, out.lines.value) == title.content + "\n\n" + faq.content
               && Slice(l.md, out.lines.value) != out.content
  {
    hide Lines, JoinLines, Rechunk, LaidOut, RStrip, AddToLayout, RunText, RunLines;
    var doc := [DocPart(title, false), DocPart(faq, false)];
    var body := LayoutIsGood(doc);
    var l := LayOut(doc);
    var t, f := TwoLaidOut(title, faq);
    FaqAfterTitleIsMerged(cfg, t, f);
    var pieces := Rechunk(cfg, l.parts)[0].pieces;
    TwoOnPage(body, l, t, f);
    var once := [Piece(t, 0), Piece(f, 0)];
    RunTextOnPage(body, once);
    RepeatedRun(pieces, once, t, f);
    var span := RunLines(once).value;
    assert Lines(l.md)[span.first..span.last] == body[span.first..span.last];
  }

  lemma TwoLaidOut(title: PartValue, faq: PartValue) returns (t: PartValue, f: PartValue)
    requires title.content != "" && faq.content != ""
    ensures LayOut([DocPart(title, false), DocPart(faq, false)]).parts == [t, f]
    ensures t == title.(lines := t.lines) && f == faq.(lines := f.lines)
  {
    hide RStrip, Newlines;
    var a, b := DocPart(title, false), DocPart(faq, false);
    assert [a, b][..1] == [a] && [a][..0] == [];
    var l1 := AddToLayout(Layout("", 0, []), a);
    assert LayOut([a]) == l1;
    var l2 := AddToLayout(l1, b);
    assert LayOut([a, b]) == l2;
    t, f := l1.parts[0], l2.parts[1];
  }

  lemma TwoOnPage(body: seq<string>, l: Layout, t: PartValue, f: PartValue)
    requires GoodLayout(l, body) && l.parts == [t, f] && t.content != "" && f.content != ""
    ensures OnLines(body, t) && OnLines(body, f) && Adjacent(t, f)
  {
    hide OnLines, Adjacent, Lines;
    KeptSnoc([], t);
    KeptSnoc([t], f);
    assert [] + [t] == [t] && [t] + [f] == [t, f] && Kept([]) == [];
    var kept := Kept(l.parts);
    assert kept[0] == t && kept[1] == f;
  }

  lemma {:induction false} RepeatedRun(pieces: seq<Piece>, once: seq<Piece>, t: PartValue, f: PartValue)
    requires PartsOf(pieces) == [t, t, f] && PartsOf(once) == [t, f]
    requires t.lines.Some? && f.lines.Some?
    ensures RunText(pieces) == t.content + "\n\n" + t.content + "\n\n" + f.content
    ensures RunText(once) == t.content + "\n\n" + f.content
    ensures RunLines(pieces) == RunLines(once)
    ensures RunText(pieces) != RunText(once)
  {
    assert pieces[0].part == t && pieces[1].part == t && pieces[2].part == f && once[0].part == t && once[1].part == f;
    RunUnfolds(pieces);
    RunUnfolds(pieces[..2]);
    RunUnfolds(pieces[..2][..1]);
    RunUnfolds(once);
    RunUnfolds(once[..1]);
    assert |RunText(pieces)| > |RunText(once)|;
  }
}
