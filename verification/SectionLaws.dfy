/** Which groups a document falls into: its sections, and which of them are put together. */
module SectionLaws {
  import opened Common
  import opened Chunking
  import opened GroupingLaws

  // ----- Sections -----

  /** Part k starts a group: the first part, a FAQ entry or a part after one, and a heading
      that is not nested. */
  predicate Starts(kept: seq<PartValue>, k: nat)
    requires k < |kept|
  {
    || k == 0 || kept[k].faq || kept[k - 1].faq
    || (kept[k].level.Some? && kept[k].level.value != 0 && kept[k].nesting == 0)
  }

  /** The group holds the parts from a on, of which only the first starts a group, and has the
      level and the title of that one; a FAQ entry has level 0 and its own id. */
  ghost predicate SectionOf(kept: seq<PartValue>, a: nat, g: GroupValue) {
    && g.items != [] && a + |g.items| <= |kept| && g.items == kept[a..a + |g.items|]
    && Starts(kept, a) && (forall i :: a < i < a + |g.items| ==> !Starts(kept, i))
    && (if kept[a].faq then g.level == 0 && g.title == kept[a].faqId
        else if kept[a].level.Some? then g.level == kept[a].level.value && g.title == kept[a].content
        else g.level == 0 && g.title == "")
  }

  /** The groups are the sections in order, some of them listed twice: starts says where each
      group starts. */
  ghost predicate Sectioned(kept: seq<PartValue>, groups: seq<GroupValue>, starts: seq<nat>) {
    && |starts| == |groups|
    && (forall k :: 0 <= k < |groups| ==> SectionOf(kept, starts[k], groups[k]))
    && (forall k :: 0 < k < |groups| ==> Follows(starts, groups, k))
    && (if groups == [] then kept == [] else starts[0] == 0 && Last(starts) + |Last(groups).items| == |kept|)
  }

  /** Group k is the section after the one before it, or that one again, right before a FAQ
      entry. */
  ghost predicate Follows(starts: seq<nat>, groups: seq<GroupValue>, k: nat)
    requires 0 < k < |groups| == |starts|
  {
    || starts[k] == starts[k - 1] + |groups[k - 1].items|
    || (starts[k] == starts[k - 1] && groups[k] == groups[k - 1])
  }

  lemma SectionOfMore(kept: seq<PartValue>, p: PartValue, a: nat, g: GroupValue)
    requires SectionOf(kept, a, g)
    ensures SectionOf(kept + [p], a, g)
  {
    var all := kept + [p];
    assert all[a..a + |g.items|] == kept[a..a + |g.items|];
    assert forall i :: 0 <= i < |kept| ==> (Starts(all, i) <==> Starts(kept, i));
  }

  lemma NewSection(kept: seq<PartValue>, p: PartValue, g: GroupValue)
    requires Starts(kept + [p], |kept|) && g == if p.faq then GroupValue(0, p.faqId, [p]) else NewGroup(p)
    ensures SectionOf(kept + [p], |kept|, g)
  {
    var all := kept + [p];
    assert all[|kept|..|kept| + 1] == [p];
  }

  lemma LongerSection(kept: seq<PartValue>, p: PartValue, a: nat, g: GroupValue)
    requires SectionOf(kept, a, g) && a + |g.items| == |kept| && !Starts(kept + [p], |kept|)
    ensures SectionOf(kept + [p], a, g.(items := g.items + [p]))
  {
    SectionOfMore(kept, p, a, g);
    var all := kept + [p];
    assert all[a..a + |g.items| + 1] == g.items + [p];
    forall i | a < i < a + |g.items| + 1
      ensures !Starts(all, i)
    {
      if i < |kept| {
        assert Starts(all, i) <==> Starts(kept, i);
      }
    }
  }

  lemma SectionedMore(kept: seq<PartValue>, p: PartValue, groups: seq<GroupValue>, starts: seq<nat>)
    requires Sectioned(kept, groups, starts)
    ensures |starts| == |groups|
    ensures forall k :: 0 <= k < |groups| ==> SectionOf(kept + [p], starts[k], groups[k])
    ensures forall k :: 0 < k < |groups| ==> Follows(starts, groups, k)
  {
    hide SectionOf, Follows;
    forall k | 0 <= k < |groups|
      ensures SectionOf(kept + [p], starts[k], groups[k])
    {
      SectionOfMore(kept, p, starts[k], groups[k]);
    }
  }

  lemma SnocSections(kept: seq<PartValue>, groups: seq<GroupValue>, starts: seq<nat>, g: GroupValue, a: nat)
    requires |starts| == |groups| && SectionOf(kept, a, g)
    requires forall k :: 0 <= k < |groups| ==> SectionOf(kept, starts[k], groups[k])
    requires forall k :: 0 < k < |groups| ==> Follows(starts, groups, k)
    requires groups != [] ==> a == Last(starts) + |Last(groups).items| || (a == Last(starts) && g == Last(groups))
    ensures var all, begins := groups + [g], starts + [a];
            && (forall k :: 0 <= k < |all| ==> SectionOf(kept, begins[k], all[k]))
            && (forall k :: 0 < k < |all| ==> Follows(begins, all, k))
  {
    hide SectionOf;
    var all, begins := groups + [g], starts + [a];
    forall k | 0 < k < |all|
      ensures Follows(begins, all, k)
    {
      assert k < |groups| ==> Follows(starts, groups, k);
    }
  }

  /** What the open group tells: the last part is no FAQ entry, and the group no repetition. */
  ghost predicate OpenAfter(g: Grouping, kept: seq<PartValue>, starts: seq<nat>) {
    && (g.open <==> kept != [] && !Last(kept).faq)
    && (g.open && |starts| > 1 ==> Last(starts) > starts[|starts| - 2])
  }

  lemma AddSections(g: Grouping, kept: seq<PartValue>, p: PartValue, starts: seq<nat>) returns (begins: seq<nat>)
    requires g.open ==> g.groups != []
    requires Sectioned(kept, g.groups, starts) && OpenAfter(g, kept, starts) && p.content != ""
    ensures Sectioned(kept + [p], AddPart(g, p).groups, begins) && OpenAfter(AddPart(g, p), kept + [p], begins)
  {
    hide SectionOf, Follows, Starts, Sectioned;
    SectionedShape(kept, g.groups, starts);
    StartsAtEnd(kept, p);
    if !p.faq && g.open && (TitleLevel(p) == 0 || p.nesting != 0) {
      ExtendSection(g.groups, kept, p, starts);
      begins := starts;
    } else if p.faq && g.open {
      RepeatAndAdd(g.groups, kept, p, starts);
      begins := starts + [Last(starts)] + [|kept|];
    } else {
      AddOneSection(g.groups, kept, p, starts);
      begins := starts + [|kept|];
    }
  }

  lemma SectionedShape(kept: seq<PartValue>, groups: seq<GroupValue>, starts: seq<nat>)
    requires Sectioned(kept, groups, starts)
    ensures |starts| == |groups| && (groups == [] <==> kept == [])
    ensures groups != [] ==> Last(starts) < |kept|
  {
    ItemsNotEmpty(kept, groups, starts);
  }

  lemma RepeatAndAdd(groups: seq<GroupValue>, kept: seq<PartValue>, p: PartValue, starts: seq<nat>)
    requires groups != [] && Sectioned(kept, groups, starts) && p.faq && Starts(kept + [p], |kept|)
    ensures Sectioned(kept + [p], groups + [Last(groups)] + [GroupValue(0, p.faqId, [p])],
                      starts + [Last(starts)] + [|kept|])
  {
    hide SectionOf, Follows, Starts;
    var all := kept + [p];
    var f := GroupValue(0, p.faqId, [p]);
    SectionedMore(kept, p, groups, starts);
    NewSection(kept, p, f);
    assert SectionOf(all, starts[|starts| - 1], groups[|groups| - 1]);
    SnocSections(all, groups, starts, Last(groups), Last(starts));
    SnocSections(all, groups + [Last(groups)], starts + [Last(starts)], f, |kept|);
  }

  lemma AddOneSection(groups: seq<GroupValue>, kept: seq<PartValue>, p: PartValue, starts: seq<nat>)
    requires Sectioned(kept, groups, starts) && Starts(kept + [p], |kept|)
    ensures Sectioned(kept + [p], groups + [if p.faq then GroupValue(0, p.faqId, [p]) else NewGroup(p)], starts + [|kept|])
  {
    hide SectionOf, Follows, Starts;
    var g := if p.faq then GroupValue(0, p.faqId, [p]) else NewGroup(p);
    SectionedMore(kept, p, groups, starts);
    NewSection(kept, p, g);
    SnocSections(kept + [p], groups, starts, g, |kept|);
  }

  lemma ItemsNotEmpty(kept: seq<PartValue>, groups: seq<GroupValue>, starts: seq<nat>)
    requires Sectioned(kept, groups, starts)
    ensures forall k :: 0 <= k < |groups| ==> groups[k].items != [] && starts[k] < |kept|
  {
    hide Starts, Follows;
    forall k | 0 <= k < |groups|
      ensures groups[k].items != [] && starts[k] < |kept|
    {
      assert SectionOf(kept, starts[k], groups[k]);
    }
  }

  lemma StartsAtEnd(kept: seq<PartValue>, p: PartValue)
    ensures Starts(kept + [p], |kept|) <==>
            kept == [] || p.faq || Last(kept).faq || (TitleLevel(p) != 0 && p.nesting == 0)
  {
  }

  lemma ExtendSection(groups: seq<GroupValue>, kept: seq<PartValue>, p: PartValue, starts: seq<nat>)
    requires groups != [] && Sectioned(kept, groups, starts) && !Starts(kept + [p], |kept|)
    requires |starts| > 1 ==> Last(starts) > starts[|starts| - 2]
    ensures var last := Last(groups).(items := Last(groups).items + [p]);
            Sectioned(kept + [p], groups[..|groups| - 1] + [last], starts)
  {
    hide SectionOf;
    var init, last := groups[..|groups| - 1], Last(groups);
    var longer := last.(items := last.items + [p]);
    var after := init + [longer];
    SectionedMore(kept, p, groups, starts);
    assert SectionOf(kept, starts[|starts| - 1], groups[|groups| - 1]);
    LongerSection(kept, p, Last(starts), last);
    forall k | 0 < k < |after|
      ensures Follows(starts, after, k)
    {
      assert Follows(starts, groups, k);
    }
  }

  /** Before title merging the groups are the sections of the document. */
  lemma {:induction false} GroupsAreSections(parts: seq<PartValue>) returns (starts: seq<nat>)
    ensures Sectioned(Kept(parts), GroupParts(parts).groups, starts)
    ensures OpenAfter(GroupParts(parts), Kept(parts), starts)
  {
    hide Sectioned, OpenAfter, AddPart, Kept;
    if parts == [] {
      starts := [];
      NoSections();
    } else {
      var init, p := parts[..|parts| - 1], Last(parts);
      assert parts == init + [p];
      KeptSnoc(init, p);
      starts := GroupsAreSections(init);
      if p.content == "" {
        AddEmptyPart(GroupParts(init), p);
        assert Kept(init) + [] == Kept(init);
      } else {
        starts := AddSections(GroupParts(init), Kept(init), p, starts);
      }
    }
  }

  lemma NoSections()
    ensures Sectioned(Kept([]), GroupParts([]).groups, []) && OpenAfter(GroupParts([]), Kept([]), [])
  {
  }

  // ----- Title merging -----

  predicate LoneHeading(g: GroupValue) {
    g.level > 0 && |g.items| == 1
  }

  /** A lone heading takes in what is not above it; level 0 is below every heading. */
  predicate Takes(heading: GroupValue, g: GroupValue) {
    g.level == 0 || g.level >= heading.level
  }

  /** The merged group is groups a up to b: a group that is no lone heading alone, and a lone
      heading with the lone headings after it that it may take and one more group, as far as
      that goes. */
  ghost predicate MergedFrom(groups: seq<GroupValue>, a: nat, b: nat, g: GroupValue) {
    && a < b <= |groups|
    && (if !LoneHeading(groups[a]) then b == a + 1 && g == groups[a]
        else
          && g == groups[a].(items := Items(groups[a..b]))
          && (forall k :: a < k < b ==> Takes(groups[a], groups[k]))
          && (forall k :: a < k < b - 1 ==> LoneHeading(groups[k]))
          && (b < |groups| && (b == a + 1 || LoneHeading(groups[b - 1])) ==> !Takes(groups[a], groups[b])))
  }

  ghost predicate MergedExactly(groups: seq<GroupValue>, i: nat, merged: seq<GroupValue>, cuts: seq<nat>) {
    && |cuts| == |merged| + 1 && cuts[0] == i && Last(cuts) == |groups|
    && forall k :: 0 <= k < |merged| ==> MergedFrom(groups, cuts[k], cuts[k + 1], merged[k])
  }

  lemma RunEndsThere(groups: seq<GroupValue>, i: nat)
    requires i < |groups| && PureTitle(groups[i])
    ensures MergedFrom(groups, i, RunEnd(groups, i), groups[i].(items := Items(groups[i..RunEnd(groups, i)])))
  {
    hide Items;
    TitleRunIsPure(groups, i + 1, groups[i].level);
    TitleRunIsBelow(groups, i + 1, groups[i].level);
  }

  lemma {:induction false} TitleRunIsBelow(groups: seq<GroupValue>, j: nat, top: int)
    requires j <= |groups|
    ensures forall k :: j <= k < TitleRun(groups, j, top) ==> groups[k].level >= top
    decreases |groups| - j
  {
    if j < |groups| && PureTitle(groups[j]) && groups[j].level >= top {
      TitleRunIsBelow(groups, j + 1, top);
    }
  }

  /** Title merging puts together exactly those groups. */
  lemma {:induction false} TitlesMergedExactly(groups: seq<GroupValue>, i: nat) returns (cuts: seq<nat>)
    requires i <= |groups|
    ensures MergedExactly(groups, i, MergeTitles(groups, i), cuts)
    decreases |groups| - i
  {
    hide MergedFrom, MergeTitles, Items, RunEnd;
    if i == |groups| {
      cuts := [i];
      assert MergeTitles(groups, i) == [] by { NothingMerged(groups); }
    } else {
      MergeTitlesUnfolds(groups, i);
      var j := if PureTitle(groups[i]) then RunEnd(groups, i) else i + 1;
      var more := TitlesMergedExactly(groups, j);
      cuts := [i] + more;
      var own := MergeTitles(groups, i)[0];
      if PureTitle(groups[i]) {
        RunEndsThere(groups, i);
      } else {
        assert MergedFrom(groups, i, i + 1, groups[i]) by { KeptGroup(groups, i); }
      }
      var merged := MergeTitles(groups, i);
      forall k | 0 <= k < |merged|
        ensures MergedFrom(groups, cuts[k], cuts[k + 1], merged[k])
      {
        assert k > 0 ==> merged[k] == MergeTitles(groups, j)[k - 1] && cuts[k] == more[k - 1] && cuts[k + 1] == more[k];
      }
    }
  }

  lemma KeptGroup(groups: seq<GroupValue>, i: nat)
    requires i < |groups| && !PureTitle(groups[i])
    ensures MergedFrom(groups, i, i + 1, groups[i])
  {
  }

  lemma {:induction false} NothingMerged(groups: seq<GroupValue>)
    ensures MergeTitles(groups, |groups|) == []
  {
  }
}
