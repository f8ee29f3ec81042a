/** What packing groups into parts keeps: the pieces in order, the token limit,
    the heading chain of each part, and FAQ entries on their own. */
module PackingLaws {
  import opened Common
  import opened Splitter
  import opened SplitterLaws
  import opened Chunking
  import opened GroupingLaws

  // ----- Conservation -----

  function RunsPieces(runs: seq<Run>): seq<Piece> {
    if runs == [] then [] else runs[0].pieces + RunsPieces(runs[1..])
  }

  function PartsOf(pieces: seq<Piece>): (r: seq<PartValue>)
    ensures |r| == |pieces| && forall i :: 0 <= i < |r| ==> r[i] == pieces[i].part
  {
    seq(|pieces|, i requires 0 <= i < |pieces| => pieces[i].part)
  }

  lemma PartsOfAppend(a: seq<Piece>, b: seq<Piece>)
    ensures PartsOf(a + b) == PartsOf(a) + PartsOf(b)
  {
    hide PartsOf;
  }

  lemma PartsOfTag(parts: seq<PartValue>, group: nat)
    ensures PartsOf(Tag(parts, group)) == parts
  {
    hide PartsOf;
  }

  function OpenPieces(open: Option<Run>): seq<Piece> {
    if open.None? then [] else open.value.pieces
  }

  lemma {:induction false} RunsPiecesAppend(a: seq<Run>, b: seq<Run>)
    ensures RunsPieces(a + b) == RunsPieces(a) + RunsPieces(b)
  {
    if a == [] {
      assert a + b == b;
    } else {
      assert (a + b)[0] == a[0] && (a + b)[1..] == a[1..] + b;
      RunsPiecesAppend(a[1..], b);
    }
  }

  lemma {:induction false} SealedPieces(done: seq<Run>, open: Option<Run>)
    ensures RunsPieces(Sealed(done, open)) == RunsPieces(done) + OpenPieces(open)
  {
    if open.Some? {
      RunsPiecesAppend(done, [open.value]);
      assert RunsPieces([open.value]) == open.value.pieces + RunsPieces([]);
    }
  }

  lemma {:induction false} AppendAllPieces(open: Option<Run>, pieces: seq<Piece>, titles: seq<string>)
    ensures OpenPieces(AppendAll(open, pieces, titles)) == OpenPieces(open) + pieces
  {
    if pieces != [] {
      AppendAllPieces(open, pieces[..|pieces| - 1], titles);
      assert pieces == pieces[..|pieces| - 1] + [Last(pieces)];
    }
  }

  /** Filling covers the pieces of the group once and in order. */
  lemma {:induction false} FillAllPieces(cfg: Config, pieces: seq<Piece>, titles: seq<string>)
    ensures var f := FillAll(cfg, pieces, titles); RunsPieces(Sealed(f.done, f.open)) == pieces
  {
    if pieces != [] {
      var init, piece := pieces[..|pieces| - 1], Last(pieces);
      FillAllPieces(cfg, init, titles);
      var before, after := FillAll(cfg, init, titles), FillAll(cfg, pieces, titles);
      SealedPieces(before.done, before.open);
      SealedPieces(after.done, after.open);
      assert pieces == init + [piece];
    }
  }

  lemma {:induction false} SumTokensBounds(cfg: Config, items: seq<PartValue>, i: nat)
    requires i < |items|
    ensures Tokens(cfg, items[i]) <= SumTokens(cfg, items)
  {
    if i < |items| - 1 {
      SumTokensBounds(cfg, items[..|items| - 1], i);
    }
  }

  /** A group that fits holds no part to split. */
  lemma {:induction false} FittingGroupIsNotSplit(cfg: Config, items: seq<PartValue>)
    requires SumTokens(cfg, items) <= cfg.size
    ensures ExpandAll(cfg, items) == items
  {
    if items != [] {
      var init := items[..|items| - 1];
      SumTokensBounds(cfg, items, |items| - 1);
      FittingGroupIsNotSplit(cfg, init);
      assert items == init + [Last(items)];
    }
  }

  lemma {:induction false} PackPieces(cfg: Config, st: Packing, g: GroupValue, index: nat)
    requires OpenRunNonEmpty(st)
    ensures var r := Pack(cfg, st, g, index);
            RunsPieces(Sealed(r.done, r.open))
            == RunsPieces(Sealed(st.done, st.open)) + Tag(ExpandAll(cfg, g.items), index)
  {
    hide RunsPieces, Sealed, ExpandAll, AppendAll, FillAll, Enter, Titles, Tag;
    var titles := Titles(Enter(st.stack, g));
    SealedPieces(st.done, st.open);
    if CanMerge(cfg, st, g) {
      FittingGroupIsNotSplit(cfg, g.items);
      hide CanMerge;
      AppendAllPieces(st.open, Tag(g.items, index), titles);
      SealedPieces(st.done, AppendAll(st.open, Tag(g.items, index), titles));
    } else {
      hide CanMerge;
      var pieces := Tag(ExpandAll(cfg, g.items), index);
      var f := FillAll(cfg, pieces, titles);
      FillAllPieces(cfg, pieces, titles);
      var before := Sealed(st.done, st.open);
      SealedPieces(f.done, f.open);
      RunsPiecesAppend(before, f.done);
      SealedPieces(before + f.done, f.open);
      var sealed := Sealed(before + f.done, f.open);
      SealedPieces(sealed, None);
      assert RunsPieces(sealed) + [] == RunsPieces(sealed);
    }
  }

  lemma {:induction false} PackAllUnfolds(cfg: Config, groups: seq<GroupValue>)
    requires groups != []
    ensures var before := PackAll(cfg, groups[..|groups| - 1]);
            && OpenRunNonEmpty(before)
            && PackAll(cfg, groups) == Pack(cfg, before, Last(groups), |groups| - 1)
  {
    hide Pack;
  }

  lemma {:induction false} PackOneMore(cfg: Config, groups: seq<GroupValue>)
    requires groups != []
    ensures RunsPieces(PackedRuns(cfg, groups))
         == RunsPieces(PackedRuns(cfg, groups[..|groups| - 1])) + Tag(ExpandAll(cfg, Last(groups).items), |groups| - 1)
  {
    hide Pack, PackAll, ExpandAll, RunsPieces, Sealed, Tag;
    PackAllUnfolds(cfg, groups);
    PackPieces(cfg, PackAll(cfg, groups[..|groups| - 1]), Last(groups), |groups| - 1);
  }

  lemma ExpandOneMore(cfg: Config, groups: seq<GroupValue>)
    requires groups != []
    ensures ExpandAll(cfg, Items(groups))
         == ExpandAll(cfg, Items(groups[..|groups| - 1])) + ExpandAll(cfg, Last(groups).items)
  {
    hide Items, ExpandAll;
    var init, g := groups[..|groups| - 1], Last(groups);
    assert groups == init + [g];
    ItemsSnoc(init, g);
    ExpandAllAppend(cfg, Items(init), g.items);
  }

  lemma {:induction false} PackNothing(cfg: Config)
    ensures PartsOf(RunsPieces(PackedRuns(cfg, []))) == ExpandAll(cfg, Items([]))
  {
    assert PackedRuns(cfg, []) == [];
  }

  /** Packing covers the parts of all groups, oversized ones split, once and in order. */
  lemma {:induction false} PackedPieces(cfg: Config, groups: seq<GroupValue>)
    ensures PartsOf(RunsPieces(PackedRuns(cfg, groups))) == ExpandAll(cfg, Items(groups))
  {
    hide PackedRuns, ExpandAll, Items, RunsPieces, PartsOf, Tag;
    if groups == [] {
      PackNothing(cfg);
    } else {
      var init, g := groups[..|groups| - 1], Last(groups);
      PackedPieces(cfg, init);
      PackOneMore(cfg, groups);
      ExpandOneMore(cfg, groups);
      PartsOfTag(ExpandAll(cfg, g.items), |groups| - 1);
      PartsOfAppend(RunsPieces(PackedRuns(cfg, init)), Tag(ExpandAll(cfg, g.items), |groups| - 1));
    }
  }

  /** Rechunking conserves content exactly when no FAQ entry directly follows
      ordinary text: the pieces of the output parts are then the parts with
      content, each oversized one replaced by its chunks, once and in order. */
  lemma {:induction false} RechunkConserves(cfg: Config, parts: seq<PartValue>)
    ensures PartsOf(RunsPieces(Rechunk(cfg, parts))) == ExpandAll(cfg, Kept(parts)) <==> NoFaqAfterText(Kept(parts))
  {
    var groups := GroupParts(parts).groups;
    GroupingCounts(cfg, parts);
    MergeTitlesKeepsItems(groups, 0);
    assert groups[0..] == groups;
    PackedPieces(cfg, MergeTitles(groups, 0));
  }

  /** A text followed by a FAQ entry: the group of the text is listed twice. */
  lemma TextFaqGroups(text: PartValue, faq: PartValue)
    requires text.content != "" && !text.faq && faq.content != "" && faq.faq
    ensures GroupParts([text, faq]).groups == [NewGroup(text), NewGroup(text), GroupValue(0, faq.faqId, [faq])]
  {
    var parts := [text, faq];
    var first := AddPart(Grouping([], false), text);
    assert parts[..1] == [text] && [text][..0] == [];
    assert GroupParts([text]) == first;
    assert GroupParts(parts) == AddPart(first, faq);
  }

  /** So the text reaches the output twice. */
  lemma {:induction false} TextBeforeFaqIsRepeated(cfg: Config, text: PartValue, faq: PartValue)
    requires text.content != "" && !text.faq && faq.content != "" && faq.faq
    ensures PartsOf(RunsPieces(Rechunk(cfg, [text, faq]))) == ExpandAll(cfg, [text, text, faq])
  {
    hide ExpandAll, PackedRuns, MergeTitles, RunsPieces, PartsOf;
    TextFaqGroups(text, faq);
    var groups := GroupParts([text, faq]).groups;
    assert groups == [NewGroup(text), NewGroup(text)] + [GroupValue(0, faq.faqId, [faq])];
    ItemsSnoc([], NewGroup(text));
    ItemsSnoc([NewGroup(text)], NewGroup(text));
    ItemsSnoc([NewGroup(text), NewGroup(text)], GroupValue(0, faq.faqId, [faq]));
    assert [] + [NewGroup(text)] == [NewGroup(text)];
    assert [NewGroup(text)] + [NewGroup(text)] == [NewGroup(text), NewGroup(text)];
    assert Items(groups) == [text, text, faq];
    MergeTitlesKeepsItems(groups, 0);
    assert groups[0..] == groups;
    PackedPieces(cfg, MergeTitles(groups, 0));
  }

  // ----- Token limit -----

  ghost predicate JoinCost(tok: Tokenizer, c: nat, x: string, y: string) {
    tok(x + "\n\n" + y) <= tok(x) + tok(y) + c
  }

  /** Joining two texts by a blank line costs at most c extra tokens. */
  ghost predicate JoinsWithin(tok: Tokenizer, c: nat) {
    forall x, y :: JoinCost(tok, c, x, y)
  }

  lemma JoinWithin(tok: Tokenizer, c: nat, x: string, y: string)
    requires JoinsWithin(tok, c)
    ensures tok(x + "\n\n" + y) <= tok(x) + tok(y) + c
  {
    assert JoinCost(tok, c, x, y);
  }

  /** The tokens that k joins may add. */
  function Slack(c: nat, k: nat): nat {
    c * k
  }

  lemma SlackAdds(c: nat, k: nat, m: nat)
    ensures Slack(c, k + m) == Slack(c, k) + Slack(c, m)
    ensures Slack(c, 0) == 0 && Slack(c, 1) == c
  {
  }

  lemma {:induction false} RunTextSnoc(pieces: seq<Piece>, last: Piece)
    requires pieces != []
    ensures RunText(pieces + [last]) == RunText(pieces) + "\n\n" + last.part.content
  {
    assert (pieces + [last])[..|pieces|] == pieces;
  }

  lemma {:induction false} JoinedTokens(cfg: Config, c: nat, a: seq<Piece>, b: seq<Piece>)
    requires JoinsWithin(cfg.tokenizer, c) && a != []
    ensures cfg.tokenizer(RunText(a + b)) <= cfg.tokenizer(RunText(a)) + SumTokens(cfg, PartsOf(b)) + Slack(c, |b|)
  {
    if b == [] {
      assert a + b == a;
    } else {
      hide PartsOf, SumTokens, RunText, Slack, JoinsWithin;
      var m, last := b[..|b| - 1], Last(b);
      JoinedTokens(cfg, c, a, m);
      assert a + b == a + m + [last];
      RunTextSnoc(a + m, last);
      JoinWithin(cfg.tokenizer, c, RunText(a + m), last.part.content);
      assert b == m + [last];
      SumTokensSnoc(cfg, m, last);
      SlackAdds(c, |m|, 1);
    }
  }

  /** A single FAQ entry or a single character, which are never cut further. */
  predicate Unsplittable(run: Run) {
    |run.pieces| == 1 && (run.pieces[0].part.faq || |run.pieces[0].part.content| <= 1)
  }

  ghost predicate WithinLimit(cfg: Config, c: nat, run: Run) {
    && run.pieces != []
    && (Unsplittable(run) || cfg.tokenizer(RunText(run.pieces)) <= cfg.size + Slack(c, |run.pieces| - 1))
  }

  ghost predicate AllWithinLimit(cfg: Config, c: nat, runs: seq<Run>) {
    forall k :: 0 <= k < |runs| ==> WithinLimit(cfg, c, runs[k])
  }

  /** A piece that packing accepts: small enough, a FAQ entry or a single character. */
  predicate FitPiece(cfg: Config, p: PartValue) {
    p.faq || |p.content| <= 1 || Tokens(cfg, p) <= cfg.size
  }

  lemma {:induction false} ExpandedPiecesFit(cfg: Config, items: seq<PartValue>)
    ensures forall i :: 0 <= i < |ExpandAll(cfg, items)| ==> FitPiece(cfg, ExpandAll(cfg, items)[i])
  {
    if items != [] {
      ExpandedPiecesFit(cfg, items[..|items| - 1]);
      var p := Last(items);
      var chunks := Split(cfg.tokenizer, p.content, cfg.size, cfg.overlap, 0);
      SplitIsGood(cfg.tokenizer, p.content, cfg.size, cfg.overlap, 0);
      forall i | 0 <= i < |Expand(cfg, p)|
        ensures FitPiece(cfg, Expand(cfg, p)[i])
      {
        hide Split;
        if !p.faq && Tokens(cfg, p) > cfg.size {
          assert GoodChunk(cfg.tokenizer, chunks[i], cfg.size);
        }
      }
    }
  }

  /** The open run of a filling counts its tokens and, once joined, keeps the limit. */
  ghost predicate FillingWithinLimit(cfg: Config, c: nat, f: Filling) {
    && AllWithinLimit(cfg, c, f.done)
    && (f.open.None? ==> f.sum == 0)
    && (f.open.Some? ==>
          && WithinLimit(cfg, c, f.open.value)
          && f.sum == SumTokens(cfg, PartsOf(f.open.value.pieces)))
  }

  lemma FillWithinLimit(cfg: Config, c: nat, f: Filling, piece: Piece, titles: seq<string>)
    requires JoinsWithin(cfg.tokenizer, c)
    requires FillingWithinLimit(cfg, c, f) && FitPiece(cfg, piece.part)
    ensures FillingWithinLimit(cfg, c, Fill(cfg, f, piece, titles))
  {
    hide RunText, PartsOf, JoinsWithin, Slack;
    var r := Fill(cfg, f, piece, titles);
    var tokens := Tokens(cfg, piece.part);
    var pieces := r.open.value.pieces;
    if f.open.None? || pieces == [piece] {
      assert pieces == [piece];
      SingleText(cfg, piece);
    } else {
      var before := f.open.value.pieces;
      assert pieces == before + [piece];
      SumTokensSnoc(cfg, before, piece);
      SumCoversText(cfg, c, pieces);
    }
  }

  lemma {:induction false} SingleText(cfg: Config, piece: Piece)
    ensures RunText([piece]) == piece.part.content
    ensures SumTokens(cfg, PartsOf([piece])) == Tokens(cfg, piece.part)
  {
    assert PartsOf([piece]) == [piece.part];
    assert [piece.part][..0] == [];
  }

  lemma {:induction false} SumTokensSnoc(cfg: Config, pieces: seq<Piece>, piece: Piece)
    ensures SumTokens(cfg, PartsOf(pieces + [piece])) == SumTokens(cfg, PartsOf(pieces)) + Tokens(cfg, piece.part)
  {
    hide PartsOf;
    var parts := PartsOf(pieces + [piece]);
    assert parts[..|pieces|] == PartsOf(pieces);
  }

  lemma {:induction false} SumCoversText(cfg: Config, c: nat, pieces: seq<Piece>)
    requires JoinsWithin(cfg.tokenizer, c) && pieces != []
    ensures cfg.tokenizer(RunText(pieces)) <= SumTokens(cfg, PartsOf(pieces)) + Slack(c, |pieces| - 1)
  {
    SlackAdds(c, 0, 0);
    hide PartsOf, SumTokens, RunText, Slack, JoinsWithin;
    if |pieces| == 1 {
      assert pieces == [pieces[0]];
      SingleText(cfg, pieces[0]);
    } else {
      var m, last := pieces[..|pieces| - 1], Last(pieces);
      assert pieces == m + [last];
      SumCoversText(cfg, c, m);
      SumTokensSnoc(cfg, m, last);
      RunTextSnoc(m, last);
      JoinWithin(cfg.tokenizer, c, RunText(m), last.part.content);
      SlackAdds(c, |m| - 1, 1);
    }
  }

  lemma {:induction false} FillAllWithinLimit(cfg: Config, c: nat, pieces: seq<Piece>, titles: seq<string>)
    requires JoinsWithin(cfg.tokenizer, c)
    requires forall i :: 0 <= i < |pieces| ==> FitPiece(cfg, pieces[i].part)
    ensures FillingWithinLimit(cfg, c, FillAll(cfg, pieces, titles))
  {
    if pieces != [] {
      hide JoinsWithin, FillingWithinLimit;
      FillAllWithinLimit(cfg, c, pieces[..|pieces| - 1], titles);
      FillWithinLimit(cfg, c, FillAll(cfg, pieces[..|pieces| - 1], titles), Last(pieces), titles);
    } else {
      assert FillingWithinLimit(cfg, c, Filling([], None, 0, false));
    }
  }

  lemma PackWithinLimit(cfg: Config, c: nat, st: Packing, g: GroupValue, index: nat)
    requires JoinsWithin(cfg.tokenizer, c) && OpenRunNonEmpty(st)
    requires AllWithinLimit(cfg, c, Sealed(st.done, st.open))
    ensures var r := Pack(cfg, st, g, index); AllWithinLimit(cfg, c, Sealed(r.done, r.open))
  {
    hide RunText, FillAll, Enter, Titles, Tag, SumTokens, ExpandAll, WithinLimit, JoinsWithin, AppendAll;
    var titles := Titles(Enter(st.stack, g));
    if CanMerge(cfg, st, g) {
      var pieces := Tag(g.items, index);
      var open := AppendAll(st.open, pieces, titles);
      MergedWithinLimit(cfg, c, st, g, pieces, open, titles);
      assert forall k :: 0 <= k < |st.done| ==> Sealed(st.done, st.open)[k] == st.done[k];
    } else {
      hide CanMerge;
      var pieces := Tag(ExpandAll(cfg, g.items), index);
      ExpandedPiecesFit(cfg, g.items);
      PartsOfTag(ExpandAll(cfg, g.items), index);
      assert forall i :: 0 <= i < |pieces| ==> pieces[i].part == PartsOf(pieces)[i];
      FillAllWithinLimit(cfg, c, pieces, titles);
    }
  }

  lemma {:induction false} MergedWithinLimit(cfg: Config, c: nat, st: Packing, g: GroupValue, pieces: seq<Piece>, open: Option<Run>,
                          titles: seq<string>)
    requires JoinsWithin(cfg.tokenizer, c) && OpenRunNonEmpty(st)
    requires CanMerge(cfg, st, g) && PartsOf(pieces) == g.items
    requires open == AppendAll(st.open, pieces, titles)
    ensures open.Some? ==> WithinLimit(cfg, c, open.value)
  {
    hide RunText, SumTokens, JoinsWithin, AppendAll, PartsOf, Slack;
    AppendAllPieces(st.open, pieces, titles);
    if st.open.Some? {
      var a := st.open.value.pieces;
      JoinedTokens(cfg, c, a, pieces);
      SlackAdds(c, |pieces|, |a| - 1);
      AppendAllNonEmpty(st.open, pieces, titles);
    } else if pieces != [] {
      SumCoversText(cfg, c, pieces);
      AppendAllNonEmpty(st.open, pieces, titles);
      assert open.value.pieces == pieces;
    } else {
      AppendNothing(st.open, titles);
    }
  }

  lemma {:induction false} AppendAllNonEmpty(open: Option<Run>, pieces: seq<Piece>, titles: seq<string>)
    requires open.Some? || pieces != []
    ensures AppendAll(open, pieces, titles).Some?
  {
  }

  lemma {:induction false} AppendNothing(open: Option<Run>, titles: seq<string>)
    ensures AppendAll(open, [], titles) == open
  {
  }

  lemma {:induction false} PackedWithinLimit(cfg: Config, c: nat, groups: seq<GroupValue>)
    requires JoinsWithin(cfg.tokenizer, c)
    ensures AllWithinLimit(cfg, c, PackedRuns(cfg, groups))
  {
    if groups != [] {
      hide Pack, PackAll, JoinsWithin, Sealed, AllWithinLimit;
      PackAllUnfolds(cfg, groups);
      PackedWithinLimit(cfg, c, groups[..|groups| - 1]);
      PackWithinLimit(cfg, c, PackAll(cfg, groups[..|groups| - 1]), Last(groups), |groups| - 1);
    }
  }

  /** Every output part of k pieces has at most size + c * (k - 1) tokens, unless
      it is one whole FAQ entry or one character. */
  lemma RechunkWithinLimit(cfg: Config, c: nat, parts: seq<PartValue>)
    requires JoinsWithin(cfg.tokenizer, c)
    ensures AllWithinLimit(cfg, c, Rechunk(cfg, parts))
  {
    PackedWithinLimit(cfg, c, Groups(parts));
  }
}
