/** When exactly FAQ entries stay on their own, whatever the token limit. */
module FaqLaws {
  import opened Common
  import opened Chunking
  import opened GroupingLaws
  import opened PackingLaws
  import opened HeadingLaws

  /** A run in which a FAQ entry has company. */
  predicate Crowded(run: Run) {
    HasFaq(PartsOf(run.pieces)) && |run.pieces| >= 2
  }

  ghost predicate SomeCrowded(runs: seq<Run>) {
    exists k :: 0 <= k < |runs| && Crowded(runs[k])
  }

  /** A heading that is no chunk. */
  predicate WholeTitle(p: PartValue) {
    TitleLevel(p) > 0 && !p.splitted
  }

  /** A group that ends with a heading that is no chunk, and a FAQ entry. */
  predicate CrowdedGroup(g: GroupValue) {
    |g.items| >= 2 && Last(g.items).faq && WholeTitle(g.items[|g.items| - 2])
  }

  /** What makes up a title-only group right before a FAQ entry is a heading and no chunk. */
  predicate WholeTitles(groups: seq<GroupValue>) {
    forall k :: 0 < k < |groups| && LoneFaq(groups[k]) && PureTitle(groups[k - 1]) ==> WholeTitle(groups[k - 1].items[0])
  }

  predicate WholeBeforeFaqs(kept: seq<PartValue>) {
    forall k :: 0 <= k < |kept| && FaqAfterLoneTitle(kept, k) ==> !kept[k - 1].splitted
  }

  // ----- Groups -----

  lemma WholeTitlesSnoc(groups: seq<GroupValue>, g: GroupValue)
    requires WholeTitles(groups)
    requires groups != [] && LoneFaq(g) && PureTitle(Last(groups)) ==> WholeTitle(Last(groups).items[0])
    ensures WholeTitles(groups + [g])
  {
    hide LoneFaq, PureTitle;
    var all := groups + [g];
    assert forall k :: 0 <= k < |groups| ==> all[k] == groups[k];
    assert all[|groups|] == g;
    hide LoneFaq;
    forall k | 0 < k < |all| && LoneFaq(all[k]) && PureTitle(all[k - 1])
      ensures |all[k - 1].items| == 1 && WholeTitle(all[k - 1].items[0])
    {
      OneTitle(all[k - 1]);
      assert k < |groups| ==> LoneFaq(groups[k]) && PureTitle(groups[k - 1]);
    }
  }

  lemma OneTitle(g: GroupValue)
    requires PureTitle(g)
    ensures |g.items| == 1
  {
  }

  /** The open group ends with the last part. */
  ghost predicate EndsWithLast(g: Grouping, kept: seq<PartValue>) {
    g.open ==> kept != [] && g.groups != [] && Last(g.groups).items != [] && Last(Last(g.groups).items) == Last(kept)
  }

  lemma {:induction false} GroupingKeepsTitlesWhole(parts: seq<PartValue>)
    requires WholeBeforeFaqs(Kept(parts))
    ensures WholeTitles(GroupParts(parts).groups) && EndsWithLast(GroupParts(parts), Kept(parts))
  {
    hide Kept, AddPart, WholeTitles, EndsWithLast, WholeBeforeFaqs, TitlesTracked;
    if parts == [] {
      NoGroupsWhole();
    } else {
      var init, p := parts[..|parts| - 1], Last(parts);
      assert parts == init + [p];
      KeptSnoc(init, p);
      WholeInit(Kept(init), p);
      GroupingKeepsTitlesWhole(init);
      LoneTitlesMakePureGroups(init);
      if p.content == "" {
        AddEmptyPart(GroupParts(init), p);
        assert Kept(init) + [] == Kept(init);
      } else {
        AddKeepsTitlesWhole(GroupParts(init), Kept(init), p);
      }
    }
  }

  lemma NoGroupsWhole()
    ensures WholeTitles(GroupParts([]).groups) && EndsWithLast(GroupParts([]), Kept([]))
  {
  }

  lemma WholeInit(kept: seq<PartValue>, p: PartValue)
    ensures WholeBeforeFaqs(kept + [p]) ==> WholeBeforeFaqs(kept)
    ensures WholeBeforeFaqs(kept + []) ==> WholeBeforeFaqs(kept)
    ensures WholeBeforeFaqs(kept + [p]) && kept != [] && p.faq && LoneTitle(kept, |kept| - 1) ==> WholeTitle(Last(kept))
  {
    assert kept + [] == kept;
    var all := kept + [p];
    assert forall k :: 0 <= k < |kept| ==> all[k] == kept[k];
    assert forall k :: 0 <= k < |kept| ==> (FaqAfterLoneTitle(all, k) <==> FaqAfterLoneTitle(kept, k));
    assert FaqAfterLoneTitle(all, |kept|) <==> p.faq && kept != [] && LoneTitle(kept, |kept| - 1);
  }

  lemma AddKeepsTitlesWhole(g: Grouping, kept: seq<PartValue>, p: PartValue)
    requires TitlesTracked(g, kept) && EndsWithLast(g, kept) && WholeTitles(g.groups) && p.content != ""
    requires kept != [] && p.faq && LoneTitle(kept, |kept| - 1) ==> WholeTitle(Last(kept))
    ensures WholeTitles(AddPart(g, p).groups) && EndsWithLast(AddPart(g, p), kept + [p])
  {
    hide WholeTitles, NoFaqAfterPureTitle, NoFaqAfterLoneTitle, LoneTitle;
    if p.faq {
      if g.open {
        WholeTitlesSnoc(g.groups, Last(g.groups));
        WholeTitlesSnoc(g.groups + [Last(g.groups)], GroupValue(0, p.faqId, [p]));
      } else {
        WholeTitlesSnoc(g.groups, GroupValue(0, p.faqId, [p]));
      }
    } else if g.open && (TitleLevel(p) == 0 || p.nesting != 0) {
      var init, last := g.groups[..|g.groups| - 1], Last(g.groups);
      WholeTitlesInit(g.groups);
      WholeTitlesSnoc(init, last.(items := last.items + [p]));
    } else {
      WholeTitlesSnoc(g.groups, NewGroup(p));
    }
  }

  lemma WholeTitlesInit(groups: seq<GroupValue>)
    requires groups != [] && WholeTitles(groups)
    ensures WholeTitles(groups[..|groups| - 1])
  {
    hide LoneFaq;
  }

  /** A heading that takes in a FAQ entry makes a crowded group. */
  lemma AbsorbedFaq(groups: seq<GroupValue>, i: nat, j: nat)
    requires i < j <= |groups| && WholeTitles(groups)
    requires forall k :: i <= k < j - 1 ==> PureTitle(groups[k])
    requires LoneFaq(groups[j - 1]) && PureTitle(groups[i])
    ensures var items := Items(groups[i..j]);
            |items| >= 2 && Last(items).faq && WholeTitle(items[|items| - 2])
  {
    hide Items;
    var t, f := groups[j - 2], groups[j - 1];
    var before := groups[i..j - 2];
    assert groups[i..j] == before + [t] + [f];
    ItemsSnoc(before, t);
    ItemsSnoc(before + [t], f);
    assert Items(groups[i..j]) == Items(before) + [t.items[0]] + [f.items[0]];
  }

  /** After title merging a FAQ entry is alone in its group, or ends one with a heading. */
  lemma {:induction false} MergedFaqGroups(groups: seq<GroupValue>, i: nat)
    requires i <= |groups| && FaqsAlone(groups) && WholeTitles(groups)
    ensures forall g <- MergeTitles(groups, i) :: HasFaq(g.items) ==> LoneFaq(g) || CrowdedGroup(g)
    decreases |groups| - i
  {
    hide Items, RunEnd, HasFaq, LoneFaq, CrowdedGroup, FaqsAlone, WholeTitles, PureTitle;
    if i < |groups| {
      MergeTitlesUnfolds(groups, i);
      FaqsAloneAt(groups, i);
      if PureTitle(groups[i]) {
        MergedFaqGroups(groups, RunEnd(groups, i));
        MergedFaqGroup(groups, i);
      } else {
        MergedFaqGroups(groups, i + 1);
      }
    }
  }

  lemma MergedFaqGroup(groups: seq<GroupValue>, i: nat)
    requires i < |groups| && FaqsAlone(groups) && WholeTitles(groups) && PureTitle(groups[i])
    ensures var g := groups[i].(items := Items(groups[i..RunEnd(groups, i)]));
            HasFaq(g.items) ==> CrowdedGroup(g)
  {
    hide Items, RunEnd, HasFaq, LoneFaq, FaqsAlone, WholeTitles, PureTitle;
    var j := RunEnd(groups, i);
    RunFaq(groups, i);
    if HasFaq(Items(groups[i..j])) {
      AbsorbedFaq(groups, i, j);
    }
  }

  // ----- Packing -----

  lemma {:induction false} SameTokens(cfg: Config, size: int, items: seq<PartValue>)
    ensures SumTokens(cfg.(size := size), items) == SumTokens(cfg, items)
  {
    if items != [] {
      SameTokens(cfg, size, items[..|items| - 1]);
    }
  }

  /** What packing counts is at most what the pieces have, and it remembers the last. */
  lemma {:induction false} FillCounts(cfg: Config, pieces: seq<Piece>, titles: seq<string>)
    ensures var f := FillAll(cfg, pieces, titles);
            && f.sum <= SumTokens(cfg, PartsOf(pieces))
            && (pieces != [] ==> f.open.Some? && f.open.value.pieces != [] && f.prevSplitted == Last(pieces).part.splitted)
  {
    hide SumTokens, PartsOf;
    if pieces == [] {
      NoTokens(cfg);
    } else {
      var init, last := pieces[..|pieces| - 1], Last(pieces);
      assert pieces == init + [last];
      SumTokensSnoc(cfg, init, last);
      FillCounts(cfg, init, titles);
    }
  }

  lemma {:induction false} NoTokens(cfg: Config)
    ensures SumTokens(cfg, PartsOf([])) == 0
  {
  }

  /** A FAQ entry that fits together with all before it stays with a part before it that is
      no chunk. */
  lemma {:induction false} FillTogether(cfg: Config, pieces: seq<Piece>, titles: seq<string>)
    requires |pieces| >= 2 && SumTokens(cfg, PartsOf(pieces)) <= cfg.size
    requires Last(pieces).part.faq && !pieces[|pieces| - 2].part.splitted
    ensures var f := FillAll(cfg, pieces, titles); f.open.Some? && Crowded(f.open.value)
  {
    hide SumTokens, PartsOf, HasFaq;
    var init, last := pieces[..|pieces| - 1], Last(pieces);
    assert pieces == init + [last];
    SumTokensSnoc(cfg, init, last);
    FillCounts(cfg, init, titles);
    var f := FillAll(cfg, init, titles);
    assert FillAll(cfg, pieces, titles) == Fill(cfg, f, last, titles);
    FaqAtEnd(f.open.value.pieces, last);
  }

  lemma FaqAtEnd(pieces: seq<Piece>, last: Piece)
    requires last.part.faq
    ensures HasFaq(PartsOf(pieces + [last]))
  {
    assert PartsOf(pieces + [last])[|pieces|] == last.part;
  }

  /** Packing a crowded group that fits makes a crowded run. */
  lemma {:induction false} PackCrowded(cfg: Config, st: Packing, g: GroupValue, index: nat)
    requires OpenRunNonEmpty(st) && CrowdedGroup(g) && SumTokens(cfg, g.items) <= cfg.size
    ensures var r := Pack(cfg, st, g, index); SomeCrowded(Sealed(r.done, r.open))
  {
    hide HasFaq, PartsOf, AppendAll, FillAll, ExpandAll, SumTokens, Tag, Crowded, Enter, Titles;
    var titles, pieces := Titles(Enter(st.stack, g)), Tag(g.items, index);
    var r := Pack(cfg, st, g, index);
    var sealed := Sealed(r.done, r.open);
    FittingGroupIsNotSplit(cfg, g.items);
    PartsOfTag(g.items, index);
    if CanMerge(cfg, st, g) {
      AppendAllPieces(st.open, pieces, titles);
      LastIsFaq(g.items);
      CrowdedPieces(OpenPieces(st.open), pieces, [], Last(sealed));
    } else {
      hide CanMerge;
      FillTogether(cfg, pieces, titles);
    }
    assert Crowded(sealed[|sealed| - 1]);
  }

  lemma LastIsFaq(items: seq<PartValue>)
    requires items != [] && Last(items).faq
    ensures HasFaq(items)
  {
  }

  lemma CrowdedPieces(before: seq<Piece>, pieces: seq<Piece>, after: seq<Piece>, run: Run)
    requires run.pieces == before + pieces + after
    requires HasFaq(PartsOf(pieces)) && |pieces| >= 2
    ensures Crowded(run)
  {
    hide HasFaq, PartsOf;
    PartsOfAppend(before, pieces);
    PartsOfAppend(before + pieces, after);
    HasFaqAppend(PartsOf(before), PartsOf(pieces));
    HasFaqAppend(PartsOf(before) + PartsOf(pieces), PartsOf(after));
  }

  /** Later groups leave a crowded run crowded. */
  lemma CrowdedStays(cfg: Config, st: Packing, g: GroupValue, index: nat)
    requires OpenRunNonEmpty(st) && SomeCrowded(Sealed(st.done, st.open))
    ensures var r := Pack(cfg, st, g, index); SomeCrowded(Sealed(r.done, r.open))
  {
    hide AppendAll, FillAll, ExpandAll, Tag, Crowded, Enter, Titles, CanMerge;
    var titles, pieces := Titles(Enter(st.stack, g)), Tag(g.items, index);
    var r := Pack(cfg, st, g, index);
    var before, after := Sealed(st.done, st.open), Sealed(r.done, r.open);
    var k :| 0 <= k < |before| && Crowded(before[k]);
    if CanMerge(cfg, st, g) && k == |st.done| {
      AppendAllPieces(st.open, pieces, titles);
      AppendAllNonEmpty(st.open, pieces, titles);
      CrowdedGrows(before[k], after[k], pieces);
    } else {
      assert after[k] == before[k];
    }
  }

  lemma CrowdedGrows(run: Run, longer: Run, pieces: seq<Piece>)
    requires Crowded(run) && longer.pieces == run.pieces + pieces
    ensures Crowded(longer)
  {
    hide HasFaq, PartsOf;
    assert [] + run.pieces + pieces == longer.pieces;
    CrowdedPieces([], run.pieces, pieces, longer);
  }

  lemma {:induction false} PackAllCrowded(cfg: Config, groups: seq<GroupValue>, k: nat)
    requires k < |groups| && CrowdedGroup(groups[k]) && SumTokens(cfg, groups[k].items) <= cfg.size
    ensures SomeCrowded(PackedRuns(cfg, groups))
  {
    hide Pack, PackAll, SomeCrowded, CrowdedGroup;
    PackAllUnfolds(cfg, groups);
    var init := groups[..|groups| - 1];
    if k == |groups| - 1 {
      PackCrowded(cfg, PackAll(cfg, init), Last(groups), |groups| - 1);
    } else {
      PackAllCrowded(cfg, init, k);
      CrowdedStays(cfg, PackAll(cfg, init), Last(groups), |groups| - 1);
    }
  }

  // ----- The exact condition -----

  lemma CrowdedIsNotAlone(runs: seq<Run>)
    requires SomeCrowded(runs)
    ensures !FaqsAloneInRuns(runs)
  {
    hide HasFaq, PartsOf;
    var k :| 0 <= k < |runs| && Crowded(runs[k]);
    assert !FaqAlone(runs[k]);
  }

  /** With a FAQ entry after a lone heading there is a token limit at which that entry
      shares its output part. */
  lemma SomeSizeCrowds(cfg: Config, parts: seq<PartValue>) returns (size: int)
    requires WholeBeforeFaqs(Kept(parts)) && !NoFaqAfterLoneTitle(Kept(parts))
    ensures !FaqsAloneInRuns(Rechunk(cfg.(size := size), parts))
  {
    hide NoFaqAfterLoneTitle, MergeTitles, PackedRuns, HasFaq, Kept, FaqsAloneInRuns, SumTokens, LoneFaq, CrowdedGroup;
    hide WholeTitles, WholeBeforeFaqs;
    var groups, merged := GroupParts(parts).groups, Groups(parts);
    LoneTitlesMakePureGroups(parts);
    GroupPartsIsolatesFaqs(parts);
    GroupingKeepsTitlesWhole(parts);
    MergeTitlesIsolatesFaqs(groups, 0);
    MergedFaqGroups(groups, 0);
    var k :| 0 <= k < |merged| && HasFaq(merged[k].items) && !LoneFaq(merged[k]);
    assert merged[k] in merged;
    size := SumTokens(cfg, merged[k].items);
    SameTokens(cfg, size, merged[k].items);
    PackAllCrowded(cfg.(size := size), merged, k);
    CrowdedIsNotAlone(Rechunk(cfg.(size := size), parts));
  }

  /** FAQ entries are on their own at every token limit exactly when none of them
      directly follows a heading that makes up a group alone. Such a heading itself must
      not be marked as a chunk; all other parts may be anything. */
  lemma {:induction false} FaqsIsolatedAtEverySize(cfg: Config, parts: seq<PartValue>)
    requires WholeBeforeFaqs(Kept(parts))
    ensures (forall size :: FaqsAloneInRuns(Rechunk(cfg.(size := size), parts))) <==> NoFaqAfterLoneTitle(Kept(parts))
  {
    hide NoFaqAfterLoneTitle, Rechunk, FaqsAloneInRuns, Kept;
    if NoFaqAfterLoneTitle(Kept(parts)) {
      forall size
        ensures FaqsAloneInRuns(Rechunk(cfg.(size := size), parts))
      {
        FaqIsolation(cfg.(size := size), parts);
      }
    } else {
      var size := SomeSizeCrowds(cfg, parts);
    }
  }
}
