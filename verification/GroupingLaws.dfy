/** What grouping and title merging keep: the parts in order, unless a FAQ entry
    follows ordinary text; and FAQ entries alone, unless one follows a title-only group. */
module GroupingLaws {
  import opened Common
  import opened SplitterLaws
  import opened Chunking

  /** The parts that carry content, in order. */
  function Kept(parts: seq<PartValue>): seq<PartValue> {
    if parts == [] then []
    else Kept(parts[..|parts| - 1]) + (if Last(parts).content == "" then [] else [Last(parts)])
  }

  /** No FAQ entry directly follows a part with content that is not one. */
  predicate NoFaqAfterText(kept: seq<PartValue>) {
    forall i :: 0 < i < |kept| && kept[i].faq ==> kept[i - 1].faq
  }

  lemma {:induction false} ItemsAppend(a: seq<GroupValue>, b: seq<GroupValue>)
    ensures Items(a + b) == Items(a) + Items(b)
  {
    if a == [] {
      assert a + b == b;
    } else {
      assert (a + b)[0] == a[0] && (a + b)[1..] == a[1..] + b;
      ItemsAppend(a[1..], b);
    }
  }

  lemma {:induction false} ItemsSnoc(a: seq<GroupValue>, g: GroupValue)
    ensures Items(a + [g]) == Items(a) + g.items
  {
    ItemsAppend(a, [g]);
    assert Items([g]) == g.items + Items([]) == g.items;
  }

  lemma {:induction false} ExpandAllAppend(cfg: Config, a: seq<PartValue>, b: seq<PartValue>)
    ensures ExpandAll(cfg, a + b) == ExpandAll(cfg, a) + ExpandAll(cfg, b)
  {
    hide Expand;
    if b == [] {
      assert a + b == a;
    } else {
      var m := b[..|b| - 1];
      assert Last(a + b) == Last(b) && (a + b)[..|a + b| - 1] == a + m;
      ExpandAllAppend(cfg, a, m);
      assert ExpandAll(cfg, a + b) == ExpandAll(cfg, a + m) + Expand(cfg, Last(b));
    }
  }

  predicate AllContent(items: seq<PartValue>) {
    forall i :: 0 <= i < |items| ==> items[i].content != ""
  }

  lemma ExpandNonEmpty(cfg: Config, p: PartValue)
    requires p.content != ""
    ensures Expand(cfg, p) != []
  {
    SplitNonEmpty(cfg.tokenizer, p.content, cfg.size, cfg.overlap);
  }

  lemma {:induction false} ExpandAllNonEmpty(cfg: Config, items: seq<PartValue>)
    requires items != [] && AllContent(items)
    ensures ExpandAll(cfg, items) != []
  {
    ExpandNonEmpty(cfg, Last(items));
  }

  predicate GroupsHaveContent(groups: seq<GroupValue>) {
    forall k :: 0 <= k < |groups| ==> groups[k].items != [] && AllContent(groups[k].items)
  }

  lemma {:induction false} KeptIsContent(parts: seq<PartValue>)
    ensures AllContent(Kept(parts))
  {
    if parts != [] {
      KeptIsContent(parts[..|parts| - 1]);
    }
  }

  lemma {:induction false} GroupPartsHaveContent(parts: seq<PartValue>)
    ensures GroupsHaveContent(GroupParts(parts).groups)
  {
    if parts != [] {
      GroupPartsHaveContent(parts[..|parts| - 1]);
    }
  }

  /** What one more part does to the grouped parts: it is appended, and a FAQ
      entry first repeats the group that was open. */
  lemma AddPartItems(g: Grouping, p: PartValue)
    requires g.open ==> g.groups != []
    ensures Items(AddPart(g, p).groups) ==
            Items(g.groups)
            + (if p.content != "" && p.faq && g.open then Last(g.groups).items else [])
            + (if p.content == "" then [] else [p])
  {
    var n := |g.groups|;
    if p.content == "" {
    } else if p.faq {
      if g.open {
        ItemsSnoc(g.groups, Last(g.groups));
        ItemsSnoc(g.groups + [Last(g.groups)], GroupValue(0, p.faqId, [p]));
      } else {
        ItemsSnoc(g.groups, GroupValue(0, p.faqId, [p]));
      }
    } else if !g.open || !(TitleLevel(p) == 0 || p.nesting != 0) {
      ItemsSnoc(g.groups, NewGroup(p));
    } else {
      var last, init := Last(g.groups), g.groups[..n - 1];
      assert g.groups == init + [last];
      ItemsSnoc(init, last);
      ItemsSnoc(init, last.(items := last.items + [p]));
    }
  }

  /** Grouping loses nothing, and repeats a group exactly when a FAQ entry
      follows ordinary text. */
  ghost predicate Counted(cfg: Config, g: Grouping, kept: seq<PartValue>) {
    && (g.open <==> kept != [] && !Last(kept).faq)
    && |ExpandAll(cfg, Items(g.groups))| >= |ExpandAll(cfg, kept)|
    && (NoFaqAfterText(kept) ==> Items(g.groups) == kept)
    && (!NoFaqAfterText(kept) ==> |ExpandAll(cfg, Items(g.groups))| > |ExpandAll(cfg, kept)|)
  }

  lemma CountedStep(cfg: Config, g: Grouping, kept: seq<PartValue>, p: PartValue)
    requires g.open ==> g.groups != []
    requires GroupsHaveContent(g.groups) && Counted(cfg, g, kept) && p.content != ""
    ensures Counted(cfg, AddPart(g, p), kept + [p])
  {
    hide Items, ExpandAll, Kept, NoFaqAfterText;
    AddPartItems(g, p);
    var dup := if p.faq && g.open then Last(g.groups).items else [];
    ExpandAllAppend(cfg, Items(g.groups) + dup, [p]);
    ExpandAllAppend(cfg, Items(g.groups), dup);
    ExpandAllAppend(cfg, kept, [p]);
    if dup != [] {
      ExpandAllNonEmpty(cfg, dup);
    } else {
      assert Items(g.groups) + dup == Items(g.groups);
    }
    assert g.open ==> Last(g.groups).items != [];
    NoFaqAfterTextSnoc(kept, p);
  }

  lemma {:induction false} GroupingCounts(cfg: Config, parts: seq<PartValue>)
    ensures Counted(cfg, GroupParts(parts), Kept(parts))
  {
    if parts != [] {
      var init, p := parts[..|parts| - 1], Last(parts);
      GroupingCounts(cfg, init);
      hide Counted, AddPart;
      if p.content == "" {
        assert Kept(parts) == Kept(init);
        AddEmptyPart(GroupParts(init), p);
      } else {
        GroupPartsHaveContent(init);
        CountedStep(cfg, GroupParts(init), Kept(init), p);
      }
    }
  }

  lemma AddEmptyPart(g: Grouping, p: PartValue)
    requires g.open ==> g.groups != []
    requires p.content == ""
    ensures AddPart(g, p) == g
  {
  }

  lemma NoFaqAfterTextSnoc(kept: seq<PartValue>, p: PartValue)
    ensures NoFaqAfterText(kept + [p]) <==> NoFaqAfterText(kept) && (kept != [] && p.faq ==> Last(kept).faq)
  {
    var all := kept + [p];
    assert forall i :: 0 <= i < |kept| ==> all[i] == kept[i];
    if NoFaqAfterText(all) {
      assert kept != [] ==> all[|kept| - 1] == Last(kept) && all[|kept|] == p;
    }
  }

  lemma {:induction false} KeptSnoc(parts: seq<PartValue>, p: PartValue)
    ensures Kept(parts + [p]) == Kept(parts) + if p.content == "" then [] else [p]
  {
    assert (parts + [p])[..|parts|] == parts;
  }

  lemma {:induction false} LastItemsAreItems(groups: seq<GroupValue>)
    requires groups != []
    ensures forall p <- Last(groups).items :: p in Items(groups)
  {
    assert groups == groups[..|groups| - 1] + [Last(groups)];
    ItemsSnoc(groups[..|groups| - 1], Last(groups));
  }

  /** Grouping makes up no parts. */
  lemma {:induction false} ItemsAreKept(parts: seq<PartValue>)
    ensures forall p <- Items(GroupParts(parts).groups) :: p in Kept(parts)
  {
    hide Items, AddPart;
    if parts == [] {
      assert Items([]) == [] by { NoItems(); }
    } else {
      var init, p := parts[..|parts| - 1], Last(parts);
      ItemsAreKept(init);
      var g := GroupParts(init);
      AddPartItems(g, p);
      KeptSnoc(init, p);
      assert parts == init + [p];
      if g.open {
        LastItemsAreItems(g.groups);
      }
    }
  }

  lemma NoItems()
    ensures Items([]) == []
  {
  }

  // ----- Title merging -----

  lemma ItemsSlice(groups: seq<GroupValue>, i: nat, j: nat)
    requires i <= j <= |groups|
    ensures Items(groups[i..]) == Items(groups[i..j]) + Items(groups[j..])
  {
    assert groups[i..] == groups[i..j] + groups[j..];
    ItemsAppend(groups[i..j], groups[j..]);
  }

  /** Title merging only regroups. */
  lemma {:induction false} MergeTitlesKeepsItems(groups: seq<GroupValue>, i: nat)
    requires i <= |groups|
    ensures Items(MergeTitles(groups, i)) == Items(groups[i..])
    decreases |groups| - i
  {
    if i < |groups| {
      var j := if PureTitle(groups[i]) then RunEnd(groups, i) else i + 1;
      MergeTitlesKeepsItems(groups, j);
      ItemsSlice(groups, i, j);
      if !PureTitle(groups[i]) {
        assert groups[i..j] == [groups[i]];
        assert Items([groups[i]]) == groups[i].items + Items([]) == groups[i].items;
      }
    }
  }

  lemma {:induction false} ItemsHaveContent(groups: seq<GroupValue>)
    requires GroupsHaveContent(groups)
    ensures AllContent(Items(groups))
    ensures groups != [] ==> Items(groups) != []
  {
    if groups != [] {
      assert groups[0].items != [];
      ItemsHaveContent(groups[1..]);
    }
  }

  lemma {:induction false} MergeTitlesHasContent(groups: seq<GroupValue>, i: nat)
    requires i <= |groups| && GroupsHaveContent(groups)
    ensures GroupsHaveContent(MergeTitles(groups, i))
    decreases |groups| - i
  {
    if i < |groups| {
      var j := if PureTitle(groups[i]) then RunEnd(groups, i) else i + 1;
      MergeTitlesHasContent(groups, j);
      ItemsHaveContent(groups[i..j]);
    }
  }

  // ----- FAQ entries -----

  /** A group that is one FAQ entry. */
  predicate LoneFaq(g: GroupValue) {
    g.level == 0 && |g.items| == 1 && g.items[0].faq
  }

  /** FAQ entries occur in groups of their own only. */
  predicate FaqsAlone(groups: seq<GroupValue>) {
    forall k :: 0 <= k < |groups| && HasFaq(groups[k].items) ==> LoneFaq(groups[k])
  }

  predicate NoFaqAfterPureTitle(groups: seq<GroupValue>, i: nat) {
    forall k :: i < k < |groups| && LoneFaq(groups[k]) ==> !PureTitle(groups[k - 1])
  }

  /** Grouping gives every FAQ entry a group of its own. */
  lemma {:induction false} GroupPartsIsolatesFaqs(parts: seq<PartValue>)
    ensures FaqsAlone(GroupParts(parts).groups)
    ensures GroupParts(parts).open ==> !HasFaq(Last(GroupParts(parts).groups).items)
  {
    if parts != [] {
      GroupPartsIsolatesFaqs(parts[..|parts| - 1]);
      AddPartIsolatesFaqs(GroupParts(parts[..|parts| - 1]), Last(parts));
    }
  }

  lemma AddPartIsolatesFaqs(g: Grouping, p: PartValue)
    requires g.open ==> g.groups != [] && !HasFaq(Last(g.groups).items)
    requires FaqsAlone(g.groups)
    ensures var r := AddPart(g, p);
            FaqsAlone(r.groups) && (r.open ==> !HasFaq(Last(r.groups).items))
  {
    hide HasFaq;
    HasFaqOne(p);
    if g.open {
      HasFaqAppend(Last(g.groups).items, [p]);
    }
  }

  lemma HasFaqOne(p: PartValue)
    ensures HasFaq([p]) <==> p.faq
  {
    assert [p][0] == p;
  }

  lemma {:induction false} TitleRunIsPure(groups: seq<GroupValue>, j: nat, top: int)
    requires j <= |groups|
    ensures var e := TitleRun(groups, j, top);
            && (forall k :: j <= k < e ==> PureTitle(groups[k]))
            && (e < |groups| ==> !(PureTitle(groups[e]) && groups[e].level >= top))
    decreases |groups| - j
  {
    if j < |groups| && PureTitle(groups[j]) && groups[j].level >= top {
      TitleRunIsPure(groups, j + 1, top);
    }
  }

  lemma {:induction false} HasFaqAppend(a: seq<PartValue>, b: seq<PartValue>)
    ensures HasFaq(a + b) <==> HasFaq(a) || HasFaq(b)
  {
    assert forall i :: 0 <= i < |a| ==> (a + b)[i] == a[i];
    assert forall i :: 0 <= i < |b| ==> (a + b)[|a| + i] == b[i];
  }

  lemma {:induction false} ItemsFaq(groups: seq<GroupValue>)
    ensures HasFaq(Items(groups)) <==> exists k :: 0 <= k < |groups| && HasFaq(groups[k].items)
  {
    if groups != [] {
      HasFaqAppend(groups[0].items, Items(groups[1..]));
      ItemsFaq(groups[1..]);
      assert forall k :: 0 < k < |groups| ==> groups[k] == groups[1..][k - 1];
    }
  }

  /** What one title-only group absorbs holds a FAQ entry exactly when its content
      group is one, and then a title-only group stands right before it. */
  lemma RunFaq(groups: seq<GroupValue>, i: nat)
    requires i < |groups| && PureTitle(groups[i]) && FaqsAlone(groups)
    ensures var j := RunEnd(groups, i);
            && (HasFaq(Items(groups[i..j])) <==> LoneFaq(groups[j - 1]))
            && (forall k :: i <= k < j - 1 ==> PureTitle(groups[k]))
            && (j < |groups| && LoneFaq(groups[j]) ==> !PureTitle(groups[j - 1]))
  {
    hide HasFaq, Items;
    var e, j := TitleRun(groups, i + 1, groups[i].level), RunEnd(groups, i);
    TitleRunIsPure(groups, i + 1, groups[i].level);
    ItemsFaq(groups[i..j]);
    assert forall k :: i <= k < e ==> PureTitle(groups[k]) && !LoneFaq(groups[k]);
    if LoneFaq(groups[j - 1]) {
      HasFaqOne(groups[j - 1].items[0]);
      assert groups[j - 1].items == [groups[j - 1].items[0]];
      assert groups[i..j][j - 1 - i] == groups[j - 1];
    }
    if HasFaq(Items(groups[i..j])) {
      var k :| 0 <= k < j - i && HasFaq(groups[i..j][k].items);
      assert groups[i..j][k] == groups[i + k];
    }
  }

  /** Title merging keeps every FAQ entry a group of its own exactly when none
      directly follows a title-only group. */
  lemma {:induction false} MergeTitlesIsolatesFaqs(groups: seq<GroupValue>, i: nat)
    requires i <= |groups| && FaqsAlone(groups)
    requires 0 < i < |groups| && LoneFaq(groups[i]) ==> !PureTitle(groups[i - 1])
    ensures FaqsAlone(MergeTitles(groups, i)) <==> NoFaqAfterPureTitle(groups, i)
    decreases |groups| - i
  {
    assert FaqsAlone([]);
    hide HasFaq, Items, FaqsAlone, RunEnd, NoFaqAfterPureTitle;
    if i == |groups| {
      assert NoFaqAfterPureTitle(groups, i) by {
        NoFaqLater(groups, i);
      }
    } else {
      MergeTitlesUnfolds(groups, i);
      hide MergeTitles;
      if !PureTitle(groups[i]) {
        FaqsAloneAt(groups, i);
        MergeTitlesIsolatesFaqs(groups, i + 1);
        NoFaqLater(groups, i);
        FaqsAloneCons(groups[i], MergeTitles(groups, i + 1));
      } else {
        var j := RunEnd(groups, i);
        RunFaq(groups, i);
        MergeTitlesIsolatesFaqs(groups, j);
        var merged := groups[i].(items := Items(groups[i..j]));
        FaqsAloneCons(merged, MergeTitles(groups, j));
        assert !LoneFaq(merged);
        RunNoFaq(groups, i);
      }
    }
  }

  lemma NoFaqLater(groups: seq<GroupValue>, i: nat)
    ensures i >= |groups| ==> NoFaqAfterPureTitle(groups, i)
    ensures i < |groups| && !PureTitle(groups[i]) ==>
              (NoFaqAfterPureTitle(groups, i) <==> NoFaqAfterPureTitle(groups, i + 1))
  {
  }

  lemma RunNoFaq(groups: seq<GroupValue>, i: nat)
    requires i < |groups| && PureTitle(groups[i]) && FaqsAlone(groups)
    ensures var j := RunEnd(groups, i);
            NoFaqAfterPureTitle(groups, i) <==> !LoneFaq(groups[j - 1]) && NoFaqAfterPureTitle(groups, j)
  {
    hide RunEnd, FaqsAlone, Items, HasFaq;
    RunFaq(groups, i);
    var j := RunEnd(groups, i);
    if LoneFaq(groups[j - 1]) {
      assert j - 1 > i && PureTitle(groups[j - 2]);
    }
  }

  lemma MergeTitlesUnfolds(groups: seq<GroupValue>, i: nat)
    requires i < |groups|
    ensures MergeTitles(groups, i) ==
            if !PureTitle(groups[i]) then [groups[i]] + MergeTitles(groups, i + 1)
            else [groups[i].(items := Items(groups[i..RunEnd(groups, i)]))] + MergeTitles(groups, RunEnd(groups, i))
  {
    hide Items, RunEnd;
  }

  lemma FaqsAloneAt(groups: seq<GroupValue>, k: nat)
    requires FaqsAlone(groups) && k < |groups|
    ensures HasFaq(groups[k].items) ==> LoneFaq(groups[k])
  {
  }

  lemma FaqsAloneCons(g: GroupValue, rest: seq<GroupValue>)
    ensures FaqsAlone([g] + rest) <==> (HasFaq(g.items) ==> LoneFaq(g)) && FaqsAlone(rest)
  {
    var all := [g] + rest;
    assert forall k :: 0 <= k < |rest| ==> rest[k] == all[k + 1];
    assert all[0] == g;
  }
}
