/** The heading chain each output part carries, and FAQ entries on their own. */
module HeadingLaws {
  import opened Common
  import opened Splitter
  import opened Chunking
  import opened GroupingLaws
  import opened PackingLaws

  // ----- The title stack -----

  /** Heading group j is not closed by any later group before n. */
  predicate StillOpen(groups: seq<GroupValue>, j: nat, n: nat)
    requires j < n <= |groups|
  {
    groups[j].level > 0 && forall k :: j < k < n ==> groups[k].level > groups[j].level
  }

  /** The heading groups before m that are still open after n groups, in order. */
  function OpenHeadings(groups: seq<GroupValue>, m: nat, n: nat): TitleStack
    requires m <= n <= |groups|
  {
    if m == 0 then []
    else OpenHeadings(groups, m - 1, n)
         + (if StillOpen(groups, m - 1, n) then [(groups[m - 1].title, groups[m - 1].level)] else [])
  }

  /** Headings still open at n that come before group k lie strictly above it. */
  lemma {:induction false} OpenHeadingsAllBelow(groups: seq<GroupValue>, m: nat, n: nat, k: nat)
    requires m <= k < n <= |groups|
    ensures forall i :: 0 <= i < |OpenHeadings(groups, m, n)| ==> OpenHeadings(groups, m, n)[i].1 < groups[k].level
  {
    if m > 0 {
      OpenHeadingsAllBelow(groups, m - 1, n, k);
    }
  }

  /** When the new group closes none of them, the open headings stay. */
  lemma {:induction false} OpenHeadingsStay(groups: seq<GroupValue>, m: nat, n: nat)
    requires m <= n < |groups|
    requires forall i :: 0 <= i < |OpenHeadings(groups, m, n)| ==> OpenHeadings(groups, m, n)[i].1 < groups[n].level
    ensures OpenHeadings(groups, m, n + 1) == OpenHeadings(groups, m, n)
  {
    if m > 0 {
      var before, all := OpenHeadings(groups, m - 1, n), OpenHeadings(groups, m, n);
      assert forall i :: 0 <= i < |before| ==> before[i] == all[i];
      OpenHeadingsStay(groups, m - 1, n);
      if StillOpen(groups, m - 1, n) {
        assert Last(all).1 == groups[m - 1].level;
      }
    }
  }

  lemma OpenHeadingsUnfolds(groups: seq<GroupValue>, m: nat, n: nat)
    requires 0 < m <= n <= |groups|
    ensures OpenHeadings(groups, m, n) == OpenHeadings(groups, m - 1, n)
            + (if StillOpen(groups, m - 1, n) then [(groups[m - 1].title, groups[m - 1].level)] else [])
  {
    hide StillOpen;
  }

  /** A group closes the open headings that are not above it. */
  lemma StillOpenNext(groups: seq<GroupValue>, j: nat, n: nat)
    requires j < n < |groups|
    ensures StillOpen(groups, j, n + 1) <==> StillOpen(groups, j, n) && groups[j].level < groups[n].level
  {
  }

  lemma {:induction false} PopUnfolds(stack: TitleStack, level: int)
    ensures stack == [] ==> Pop(stack, level) == []
    ensures stack != [] && Last(stack).1 < level ==> Pop(stack, level) == stack
    ensures stack != [] && Last(stack).1 >= level ==> Pop(stack, level) == Pop(stack[..|stack| - 1], level)
  {
  }

  /** Popping the stack leaves the headings that the new group does not close. */
  lemma {:induction false} PopClosesHeadings(groups: seq<GroupValue>, m: nat, n: nat)
    requires m <= n < |groups|
    ensures Pop(OpenHeadings(groups, m, n), groups[n].level) == OpenHeadings(groups, m, n + 1)
  {
    hide OpenHeadings, StillOpen, Pop;
    if m == 0 {
      NoneOpen(groups, n);
    } else {
      PopUnfolds(OpenHeadings(groups, m, n), groups[n].level);
      OpenHeadingsUnfolds(groups, m, n);
      OpenHeadingsUnfolds(groups, m, n + 1);
      StillOpenNext(groups, m - 1, n);
      var stack, below := OpenHeadings(groups, m, n), OpenHeadings(groups, m - 1, n);
      if StillOpen(groups, m - 1, n) {
        assert stack[..|stack| - 1] == below;
        if groups[m - 1].level >= groups[n].level {
          PopClosesHeadings(groups, m - 1, n);
        } else {
          OpenHeadingsAllBelow(groups, m - 1, n, m - 1);
          OpenHeadingsStay(groups, m - 1, n);
        }
      } else {
        assert stack == below;
        PopClosesHeadings(groups, m - 1, n);
      }
    }
  }

  lemma NoneOpen(groups: seq<GroupValue>, n: nat)
    requires n < |groups|
    ensures OpenHeadings(groups, 0, n) == OpenHeadings(groups, 0, n + 1) == Pop([], groups[n].level) == []
  {
  }

  /** Entering a group keeps the stack equal to the open headings. */
  lemma EnterKeepsOpenHeadings(groups: seq<GroupValue>, n: nat)
    requires n < |groups|
    ensures Enter(OpenHeadings(groups, n, n), groups[n]) == OpenHeadings(groups, n + 1, n + 1)
  {
    PopClosesHeadings(groups, n, n);
  }

  // ----- What each output part carries -----

  /** The heading chain of group g: the headings open when it is entered. */
  function Chain(groups: seq<GroupValue>, g: nat): seq<string>
    requires g < |groups|
  {
    Titles(OpenHeadings(groups, g + 1, g + 1))
  }

  /** A run carries the chain of its first group, and no group in it has a lower
      level number than that one. */
  ghost predicate Labelled(groups: seq<GroupValue>, run: Run) {
    && run.pieces != []
    && run.pieces[0].group < |groups|
    && run.titles == Chain(groups, run.pieces[0].group)
    && (forall i :: 0 <= i < |run.pieces| ==>
          && run.pieces[i].group < |groups|
          && groups[run.pieces[i].group].level >= groups[run.pieces[0].group].level)
  }

  ghost predicate AllLabelled(groups: seq<GroupValue>, runs: seq<Run>) {
    forall k :: 0 <= k < |runs| ==> Labelled(groups, runs[k])
  }

  ghost predicate LabelledPacking(groups: seq<GroupValue>, n: nat, st: Packing)
    requires n <= |groups|
  {
    && st.stack == OpenHeadings(groups, n, n)
    && AllLabelled(groups, st.done)
    && (st.open.Some? ==>
          && Labelled(groups, st.open.value)
          && st.top == Some(groups[st.open.value.pieces[0].group].level))
    && (st.open.None? ==> st.top.None?)
  }

  lemma {:induction false} AppendAllLabels(groups: seq<GroupValue>, open: Option<Run>, parts: seq<PartValue>, g: nat)
    requires g < |groups|
    requires open.Some? ==> Labelled(groups, open.value) && groups[open.value.pieces[0].group].level <= groups[g].level
    ensures var r := AppendAll(open, Tag(parts, g), Chain(groups, g));
            && (r.Some? ==> Labelled(groups, r.value))
            && (open.Some? ==> r.Some? && r.value.pieces[0] == open.value.pieces[0])
            && (open.None? && parts != [] ==> r.Some? && r.value.pieces[0].group == g)
            && (open.None? && parts == [] ==> r.None?)
  {
    hide Chain, Tag;
    if parts != [] {
      var init := parts[..|parts| - 1];
      assert Tag(parts, g)[..|parts| - 1] == Tag(init, g);
      AppendAllLabels(groups, open, init, g);
    }
  }

  lemma {:induction false} FillAllLabels(cfg: Config, groups: seq<GroupValue>, parts: seq<PartValue>, g: nat)
    requires g < |groups|
    ensures var f := FillAll(cfg, Tag(parts, g), Chain(groups, g));
            AllLabelled(groups, f.done) && (f.open.Some? ==> Labelled(groups, f.open.value))
            && (f.open.Some? ==> f.open.value.pieces[0].group == g)
  {
    hide Chain, Tag;
    if parts != [] {
      var init := parts[..|parts| - 1];
      assert Tag(parts, g)[..|parts| - 1] == Tag(init, g);
      FillAllLabels(cfg, groups, init, g);
    }
  }

  lemma PackLabels(cfg: Config, groups: seq<GroupValue>, n: nat, st: Packing)
    requires n < |groups| && groups[n].items != []
    requires LabelledPacking(groups, n, st)
    ensures LabelledPacking(groups, n + 1, Pack(cfg, st, groups[n], n))
  {
    hide Tag, OpenHeadings, Enter, AppendAll, FillAll, RunText, ExpandAll, SumTokens, Titles;
    var g := groups[n];
    EnterKeepsOpenHeadings(groups, n);
    assert Chain(groups, n) == Titles(Enter(st.stack, g));
    if CanMerge(cfg, st, g) {
      AppendAllLabels(groups, st.open, g.items, n);
    } else {
      hide CanMerge, Labelled;
      FillAllLabels(cfg, groups, ExpandAll(cfg, g.items), n);
    }
  }

  lemma {:induction false} PackAllLabels(cfg: Config, groups: seq<GroupValue>, n: nat)
    requires n <= |groups| && GroupsHaveContent(groups)
    ensures LabelledPacking(groups, n, PackAll(cfg, groups[..n]))
  {
    if n > 0 {
      hide LabelledPacking, Pack, PackAll;
      PackAllLabels(cfg, groups, n - 1);
      assert groups[..n][..n - 1] == groups[..n - 1];
      PackAllUnfolds(cfg, groups[..n]);
      PackLabels(cfg, groups, n - 1, PackAll(cfg, groups[..n - 1]));
    }
  }

  /** Every output part carries the chain of open headings of the group it starts
      in, and takes in no group with a lower level number than that one. */
  lemma RechunkLabels(cfg: Config, parts: seq<PartValue>)
    ensures AllLabelled(Groups(parts), Rechunk(cfg, parts))
  {
    var groups := Groups(parts);
    GroupPartsHaveContent(parts);
    MergeTitlesHasContent(GroupParts(parts).groups, 0);
    assert groups[..|groups|] == groups;
    PackAllLabels(cfg, groups, |groups|);
  }

  /** An output part carries that chain as its titles, or those of its first piece if it is
      empty, and what else it says is what its first piece says; it is no heading any more. */
  lemma {:induction false} OutputLabels(cfg: Config, parts: seq<PartValue>, k: nat)
    requires k < |Rechunk(cfg, parts)|
    ensures var run := Rechunk(cfg, parts)[k];
            && run.pieces != [] && run.pieces[0].group < |Groups(parts)|
            && var out, first := Render(run), run.pieces[0].part;
               var chain := Chain(Groups(parts), run.pieces[0].group);
               && out.titles == (if chain == [] then first.titles else Some(chain)) && out.level.None?
               && out.faq == first.faq && out.faqId == first.faqId && out.splitted == first.splitted
               && out.nesting == first.nesting
  {
    hide Rechunk, Groups, Chain, RunText, RunLines;
    RechunkLabels(cfg, parts);
    assert Labelled(Groups(parts), Rechunk(cfg, parts)[k]);
  }

  // ----- FAQ entries -----

  /** FAQ entries of a sequence of parts, in order. */
  function Faqs(items: seq<PartValue>): seq<PartValue> {
    if items == [] then []
    else Faqs(items[..|items| - 1]) + (if Last(items).faq then [Last(items)] else [])
  }

  /** A run that holds a FAQ entry holds nothing else. */
  ghost predicate FaqAlone(run: Run) {
    run.pieces != [] && (HasFaq(PartsOf(run.pieces)) ==> |run.pieces| == 1)
  }

  ghost predicate FaqsAloneInRuns(runs: seq<Run>) {
    forall k :: 0 <= k < |runs| ==> FaqAlone(runs[k])
  }

  lemma {:induction false} FaqsAppend(a: seq<PartValue>, b: seq<PartValue>)
    ensures Faqs(a + b) == Faqs(a) + Faqs(b)
  {
    if b == [] {
      assert a + b == a;
    } else {
      var m := b[..|b| - 1];
      assert (a + b)[..|a + b| - 1] == a + m && Last(a + b) == Last(b);
      FaqsAppend(a, m);
    }
  }

  lemma {:induction false} NoFaqs(items: seq<PartValue>)
    requires !HasFaq(items)
    ensures Faqs(items) == []
  {
    if items != [] {
      assert forall i :: 0 <= i < |items| - 1 ==> items[..|items| - 1][i] == items[i];
      NoFaqs(items[..|items| - 1]);
    }
  }

  lemma ExpandFaqs(cfg: Config, p: PartValue)
    ensures Faqs(Expand(cfg, p)) == Faqs([p])
    ensures HasFaq(Expand(cfg, p)) ==> HasFaq([p])
  {
    hide Split;
    HasFaqOne(p);
    if !p.faq {
      NoFaqs([p]);
      NoFaqs(Expand(cfg, p));
    }
  }

  /** Splitting oversized parts leaves the FAQ entries as they are. */
  lemma {:induction false} ExpandAllFaqs(cfg: Config, items: seq<PartValue>)
    ensures Faqs(ExpandAll(cfg, items)) == Faqs(items)
    ensures HasFaq(ExpandAll(cfg, items)) ==> HasFaq(items)
  {
    hide Expand, HasFaq, ExpandAll, Faqs;
    if items == [] {
      ExpandNothing(cfg);
    } else {
      var init, p := items[..|items| - 1], Last(items);
      ExpandAllFaqs(cfg, init);
      ExpandFaqs(cfg, p);
      ExpandAllSnoc(cfg, init, p);
      FaqsAppend(ExpandAll(cfg, init), Expand(cfg, p));
      FaqsAppend(init, [p]);
      HasFaqAppend(ExpandAll(cfg, init), Expand(cfg, p));
      HasFaqAppend(init, [p]);
      assert items == init + [p];
    }
  }

  lemma {:induction false} ExpandNothing(cfg: Config)
    ensures ExpandAll(cfg, []) == [] && Faqs([]) == [] && !HasFaq([])
  {
  }

  lemma {:induction false} ExpandAllSnoc(cfg: Config, items: seq<PartValue>, p: PartValue)
    ensures ExpandAll(cfg, items + [p]) == ExpandAll(cfg, items) + Expand(cfg, p)
  {
    hide Expand;
    assert (items + [p])[..|items|] == items;
  }

  /** Grouping repeats no FAQ entry. */
  lemma {:induction false} GroupingKeepsFaqs(parts: seq<PartValue>)
    ensures Faqs(Items(GroupParts(parts).groups)) == Faqs(Kept(parts))
  {
    if parts != [] {
      hide Faqs, Items;
      var init, p := parts[..|parts| - 1], Last(parts);
      GroupingKeepsFaqs(init);
      GroupPartsIsolatesFaqs(init);
      var g, kept := GroupParts(init), Kept(init);
      AddPartItems(g, p);
      var dup := if p.content != "" && p.faq && g.open then Last(g.groups).items else [];
      var added := if p.content == "" then [] else [p];
      FaqsAppend(Items(g.groups) + dup, added);
      FaqsAppend(Items(g.groups), dup);
      FaqsAppend(kept, added);
      if dup == [] {
        assert !HasFaq(dup);
      }
      NoFaqs(dup);
    }
  }

  lemma {:induction false} AppendAllFaqAlone(open: Option<Run>, pieces: seq<Piece>, titles: seq<string>)
    requires open.Some? ==> open.value.pieces != []
    requires open.Some? ==> !HasFaq(PartsOf(open.value.pieces)) && !HasFaq(PartsOf(pieces))
    requires HasFaq(PartsOf(pieces)) ==> |pieces| == 1
    ensures var r := AppendAll(open, pieces, titles); r.Some? ==> FaqAlone(r.value)
  {
    hide HasFaq, PartsOf, AppendAll;
    AppendAllPieces(open, pieces, titles);
    PartsOfAppend(OpenPieces(open), pieces);
    if open.Some? {
      HasFaqAppend(PartsOf(open.value.pieces), PartsOf(pieces));
    } else {
      assert OpenPieces(open) + pieces == pieces;
      if pieces == [] {
        AppendNothing(open, titles);
      }
    }
  }

  ghost predicate NoFaqFilling(f: Filling) {
    && FaqsAloneInRuns(f.done)
    && (f.open.Some? ==> f.open.value.pieces != [] && !HasFaq(PartsOf(f.open.value.pieces)))
  }

  lemma FillWithoutFaqs(cfg: Config, f: Filling, piece: Piece, titles: seq<string>)
    requires NoFaqFilling(f) && !piece.part.faq
    ensures NoFaqFilling(Fill(cfg, f, piece, titles))
  {
    hide HasFaq, PartsOf;
    PartsOfTag([piece.part], piece.group);
    assert Tag([piece.part], piece.group) == [piece];
    HasFaqOne(piece.part);
    if f.open.Some? {
      PartsOfAppend(f.open.value.pieces, [piece]);
      HasFaqAppend(PartsOf(f.open.value.pieces), PartsOf([piece]));
    }
  }

  /** Packing the pieces of a group without FAQ entries makes runs without them. */
  lemma {:induction false} FillAllWithoutFaqs(cfg: Config, pieces: seq<Piece>, titles: seq<string>)
    requires forall i :: 0 <= i < |pieces| ==> !pieces[i].part.faq
    ensures NoFaqFilling(FillAll(cfg, pieces, titles))
  {
    if pieces != [] {
      hide NoFaqFilling, Fill;
      FillAllWithoutFaqs(cfg, pieces[..|pieces| - 1], titles);
      FillWithoutFaqs(cfg, FillAll(cfg, pieces[..|pieces| - 1], titles), Last(pieces), titles);
    }
  }

  /** Alone, and not open for a group with more FAQ entries. */
  ghost predicate FaqPacking(st: Packing) {
    && FaqsAloneInRuns(Sealed(st.done, st.open))
    && OpenRunNonEmpty(st)
  }

  lemma PackFaqs(cfg: Config, st: Packing, g: GroupValue, index: nat)
    requires FaqPacking(st) && (HasFaq(g.items) ==> LoneFaq(g))
    ensures FaqPacking(Pack(cfg, st, g, index))
  {
    hide HasFaq, PartsOf, AppendAll, FillAll, ExpandAll, SumTokens, RunText, Enter, Titles, Tag;
    var titles := Titles(Enter(st.stack, g));
    var sealed := Sealed(st.done, st.open);
    if CanMerge(cfg, st, g) {
      PartsOfTag(g.items, index);
      if st.open.Some? {
        assert FaqAlone(Last(sealed));
        FirstIsFaq(st.open.value.pieces);
      }
      AppendAllFaqAlone(st.open, Tag(g.items, index), titles);
      assert forall k :: 0 <= k < |st.done| ==> sealed[k] == st.done[k];
    } else {
      hide CanMerge;
      PartsOfTag(ExpandAll(cfg, g.items), index);
      ExpandAllFaqs(cfg, g.items);
      if HasFaq(g.items) {
        ExpandLoneFaq(cfg, g, index, titles);
      } else {
        NotFaqs(ExpandAll(cfg, g.items));
        FillAllWithoutFaqs(cfg, Tag(ExpandAll(cfg, g.items), index), titles);
      }
    }
  }

  lemma NotFaqs(items: seq<PartValue>)
    requires !HasFaq(items)
    ensures forall i :: 0 <= i < |items| ==> !items[i].faq
  {
  }

  /** In a run that is alone if it has a FAQ entry, the first piece tells. */
  lemma FirstIsFaq(pieces: seq<Piece>)
    requires pieces != [] && (HasFaq(PartsOf(pieces)) ==> |pieces| == 1)
    ensures HasFaq(PartsOf(pieces)) <==> pieces[0].part.faq
  {
    assert PartsOf(pieces)[0] == pieces[0].part;
  }

  lemma {:induction false} ExpandLoneFaq(cfg: Config, g: GroupValue, index: nat, titles: seq<string>)
    requires LoneFaq(g)
    ensures FillAll(cfg, Tag(ExpandAll(cfg, g.items), index), titles).done == []
    ensures var open := FillAll(cfg, Tag(ExpandAll(cfg, g.items), index), titles).open;
            open.Some? && |open.value.pieces| == 1
  {
    var p := g.items[0];
    assert g.items == [p] && [p][..0] == [];
    assert ExpandAll(cfg, [p]) == [p];
    var pieces := Tag([p], index);
    assert pieces[..0] == [];
    assert FillAll(cfg, pieces, titles) == Fill(cfg, Filling([], None, 0, false), pieces[0], titles);
  }

  lemma {:induction false} PackAllFaqs(cfg: Config, groups: seq<GroupValue>)
    requires FaqsAlone(groups)
    ensures FaqPacking(PackAll(cfg, groups))
  {
    if groups != [] {
      hide Pack, PackAll, HasFaq, FaqPacking;
      PackAllUnfolds(cfg, groups);
      PackAllFaqs(cfg, groups[..|groups| - 1]);
      FaqsAloneAt(groups, |groups| - 1);
      PackFaqs(cfg, PackAll(cfg, groups[..|groups| - 1]), Last(groups), |groups| - 1);
    }
  }

  /** Part k is a FAQ entry whose predecessor is a heading that makes up a group alone. */
  predicate FaqAfterLoneTitle(kept: seq<PartValue>, k: nat)
    requires k < |kept|
  {
    kept[k].faq && k > 0 && LoneTitle(kept, k - 1)
  }

  /** Part k is a heading that starts a group. */
  predicate LoneTitle(kept: seq<PartValue>, k: nat)
    requires k < |kept|
  {
    && !kept[k].faq && TitleLevel(kept[k]) > 0
    && (kept[k].nesting == 0 || k == 0 || kept[k - 1].faq)
  }

  predicate NoFaqAfterLoneTitle(kept: seq<PartValue>) {
    forall k :: 0 <= k < |kept| ==> !FaqAfterLoneTitle(kept, k)
  }

  /** How the groups mirror the parts: the open group is title-only exactly when the
      last part is a heading that starts a group. */
  ghost predicate TitlesTracked(g: Grouping, kept: seq<PartValue>) {
    && (g.open <==> kept != [] && !Last(kept).faq)
    && (g.open ==> g.groups != [] && Last(g.groups).items != [] && !LoneFaq(Last(g.groups)))
    && (g.open ==> (PureTitle(Last(g.groups)) <==> LoneTitle(kept, |kept| - 1)))
    && (!g.open && g.groups != [] ==> LoneFaq(Last(g.groups)))
    && (NoFaqAfterPureTitle(g.groups, 0) <==> NoFaqAfterLoneTitle(kept))
  }

  lemma NoFaqAfterPureTitleSnoc(groups: seq<GroupValue>, g: GroupValue)
    ensures NoFaqAfterPureTitle(groups + [g], 0) <==>
            NoFaqAfterPureTitle(groups, 0) && (groups != [] && LoneFaq(g) ==> !PureTitle(Last(groups)))
  {
    var all := groups + [g];
    assert forall k :: 0 <= k < |groups| ==> all[k] == groups[k];
    assert all[|groups|] == g;
    if NoFaqAfterPureTitle(groups, 0) && (groups != [] && LoneFaq(g) ==> !PureTitle(Last(groups))) {
      forall k | 0 < k < |all| && LoneFaq(all[k])
        ensures !PureTitle(all[k - 1])
      {
        assert k < |groups| ==> LoneFaq(groups[k]);
      }
    }
    if NoFaqAfterPureTitle(all, 0) {
      forall k | 0 < k < |groups| && LoneFaq(groups[k])
        ensures !PureTitle(groups[k - 1])
      {
        assert LoneFaq(all[k]);
      }
    }
  }

  lemma NoFaqAfterLoneTitleSnoc(kept: seq<PartValue>, p: PartValue)
    ensures NoFaqAfterLoneTitle(kept + [p]) <==>
            NoFaqAfterLoneTitle(kept) && !(p.faq && kept != [] && LoneTitle(kept, |kept| - 1))
  {
    var all := kept + [p];
    assert forall k :: 0 <= k < |kept| ==> all[k] == kept[k];
    assert forall k :: 0 <= k < |kept| ==> (FaqAfterLoneTitle(all, k) <==> FaqAfterLoneTitle(kept, k));
    assert FaqAfterLoneTitle(all, |kept|) <==> p.faq && kept != [] && LoneTitle(kept, |kept| - 1);
  }

  lemma LoneTitleStep(g: Grouping, kept: seq<PartValue>, p: PartValue)
    requires TitlesTracked(g, kept) && p.content != ""
    ensures TitlesTracked(AddPart(g, p), kept + [p])
  {
    hide NoFaqAfterPureTitle, NoFaqAfterLoneTitle, TitlesTracked, LoneTitle, PureTitle, LoneFaq;
    TrackedOpen(g, kept);
    if p.faq {
      FaqTracked(g, kept, p);
    } else if g.open && (TitleLevel(p) == 0 || p.nesting != 0) {
      ExtensionTracked(g, kept, p);
    } else {
      NewGroupTracked(g, kept, p);
    }
  }

  lemma TrackedOpen(g: Grouping, kept: seq<PartValue>)
    requires TitlesTracked(g, kept)
    ensures g.open ==> g.groups != []
  {
  }

  lemma FaqTracked(g: Grouping, kept: seq<PartValue>, p: PartValue)
    requires TitlesTracked(g, kept) && p.content != "" && p.faq
    ensures TitlesTracked(AddPart(g, p), kept + [p])
  {
    hide NoFaqAfterPureTitle, NoFaqAfterLoneTitle;
    NoFaqAfterLoneTitleSnoc(kept, p);
    var closed := if g.open then g.groups + [Last(g.groups)] else g.groups;
    if g.open {
      NoFaqAfterPureTitleSnoc(g.groups, Last(g.groups));
    }
    NoFaqAfterPureTitleSnoc(closed, GroupValue(0, p.faqId, [p]));
  }

  lemma ExtensionTracked(g: Grouping, kept: seq<PartValue>, p: PartValue)
    requires TitlesTracked(g, kept) && p.content != "" && !p.faq
    requires g.open && (TitleLevel(p) == 0 || p.nesting != 0)
    ensures TitlesTracked(AddPart(g, p), kept + [p])
  {
    hide NoFaqAfterPureTitle, NoFaqAfterLoneTitle;
    NoFaqAfterLoneTitleSnoc(kept, p);
    var init, last := g.groups[..|g.groups| - 1], Last(g.groups);
    assert g.groups == init + [last];
    NoFaqAfterPureTitleSnoc(init, last);
    NoFaqAfterPureTitleSnoc(init, last.(items := last.items + [p]));
  }

  lemma NewGroupTracked(g: Grouping, kept: seq<PartValue>, p: PartValue)
    requires TitlesTracked(g, kept) && p.content != "" && !p.faq
    requires !(g.open && (TitleLevel(p) == 0 || p.nesting != 0))
    ensures TitlesTracked(AddPart(g, p), kept + [p])
  {
    hide NoFaqAfterPureTitle, NoFaqAfterLoneTitle;
    NoFaqAfterLoneTitleSnoc(kept, p);
    NoFaqAfterPureTitleSnoc(g.groups, NewGroup(p));
  }

  /** The condition on groups, told on the parts. */
  lemma {:induction false} LoneTitlesMakePureGroups(parts: seq<PartValue>)
    ensures TitlesTracked(GroupParts(parts), Kept(parts))
  {
    if parts != [] {
      hide TitlesTracked, AddPart;
      var init, p := parts[..|parts| - 1], Last(parts);
      LoneTitlesMakePureGroups(init);
      if p.content != "" {
        LoneTitleStep(GroupParts(init), Kept(init), p);
      } else {
        assert Kept(parts) == Kept(init);
        AddEmptyPart(GroupParts(init), p);
      }
    }
  }

  /** When no FAQ entry directly follows a heading that makes up a group alone,
      each FAQ entry is one whole output part, and the output parts hold exactly
      the FAQ entries of the input, in order and unchanged. */
  lemma {:induction false} FaqIsolation(cfg: Config, parts: seq<PartValue>)
    requires NoFaqAfterLoneTitle(Kept(parts))
    ensures FaqsAloneInRuns(Rechunk(cfg, parts))
    ensures Faqs(PartsOf(RunsPieces(Rechunk(cfg, parts)))) == Faqs(Kept(parts))
  {
    LoneTitlesMakePureGroups(parts);
    FaqSequence(cfg, parts);
    var groups := GroupParts(parts).groups;
    GroupPartsIsolatesFaqs(parts);
    MergeTitlesIsolatesFaqs(groups, 0);
    PackAllFaqs(cfg, Groups(parts));
  }

  /** Without any condition the pieces hold the FAQ entries in order and unsplit. */
  lemma {:induction false} FaqSequence(cfg: Config, parts: seq<PartValue>)
    ensures Faqs(PartsOf(RunsPieces(Rechunk(cfg, parts)))) == Faqs(Kept(parts))
  {
    hide Faqs, Items, ExpandAll, PartsOf, RunsPieces, PackedRuns, MergeTitles;
    var groups := GroupParts(parts).groups;
    MergeTitlesKeepsItems(groups, 0);
    assert groups[0..] == groups;
    PackedPieces(cfg, MergeTitles(groups, 0));
    ExpandAllFaqs(cfg, Items(groups));
    GroupingKeepsFaqs(parts);
  }

  /** A FAQ entry after a heading alone: both are packed into one part when they
      fit together, the heading twice. */
  lemma FaqAfterTitleIsMerged(cfg: Config, title: PartValue, faq: PartValue)
    requires title.content != "" && !title.faq && TitleLevel(title) > 0
    requires faq.content != "" && faq.faq
    requires 2 * Tokens(cfg, title) + Tokens(cfg, faq) <= cfg.size
    ensures |Rechunk(cfg, [title, faq])| == 1
    ensures PartsOf(Rechunk(cfg, [title, faq])[0].pieces) == [title, title, faq]
  {
    var t, f := NewGroup(title), GroupValue(0, faq.faqId, [faq]);
    TextFaqGroups(title, faq);
    TitlesAbsorbFaq(t, f);
    var merged := t.(items := [title, title, faq]);
    assert [title] + [title] + [faq] == [title, title, faq];
    assert Groups([title, faq]) == [merged];
    MergedGroupPacks(cfg, merged, title, faq);
  }

  lemma TitlesAbsorbFaq(t: GroupValue, f: GroupValue)
    requires PureTitle(t) && LoneFaq(f)
    ensures MergeTitles([t, t, f], 0) == [t.(items := t.items + t.items + f.items)]
  {
    var groups := [t, t, f];
    assert TitleRun(groups, 1, t.level) == 2;
    assert RunEnd(groups, 0) == 3;
    assert groups[0..3] == groups;
    assert Items(groups) == t.items + t.items + f.items by {
      ItemsSnoc([], t);
      ItemsSnoc([t], t);
      ItemsSnoc([t, t], f);
      assert [] + [t] == [t] && [t] + [t] == [t, t] && [t, t] + [f] == groups;
    }
    MergeTitlesUnfolds(groups, 0);
    assert MergeTitles(groups, 3) == [];
  }

  lemma {:induction false} SumTokensMore(cfg: Config, items: seq<PartValue>, p: PartValue)
    ensures SumTokens(cfg, items + [p]) == SumTokens(cfg, items) + Tokens(cfg, p)
  {
    assert (items + [p])[..|items|] == items;
  }

  lemma MergedGroupPacks(cfg: Config, g: GroupValue, title: PartValue, faq: PartValue)
    requires g.items == [title, title, faq]
    requires 2 * Tokens(cfg, title) + Tokens(cfg, faq) <= cfg.size
    ensures var runs := PackedRuns(cfg, [g]);
            |runs| == 1 && PartsOf(runs[0].pieces) == g.items
  {
    assert [g][..0] == [];
    var items := g.items;
    assert items == [title, title] + [faq] && [title, title] == [title] + [title] && [title] == [] + [title];
    SumTokensMore(cfg, [], title);
    SumTokensMore(cfg, [title], title);
    SumTokensMore(cfg, [title, title], faq);
    assert SumTokens(cfg, items) == 2 * Tokens(cfg, title) + Tokens(cfg, faq);
    var st := Packing([], [], None, None);
    assert PackAll(cfg, [g]) == Pack(cfg, st, g, 0);
    assert CanMerge(cfg, st, g);
    hide PackAll, SumTokens, CanMerge, AppendAll;
    var titles := Titles(Enter([], g));
    AppendAllPieces(None, Tag(items, 0), titles);
    AppendAllNonEmpty(None, Tag(items, 0), titles);
    PartsOfTag(items, 0);
    assert [] + Tag(items, 0) == Tag(items, 0);
  }
}
