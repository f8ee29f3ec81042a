/** In which order the parts of a document come out: grouping only ever jumps back to the
    start of a group it repeats, so an output part begins with the earliest of its pieces. */
module OrderLaws {
  import opened Common
  import opened Chunking
  import opened GroupingLaws
  import opened PackingLaws
  import opened Splitter

  /** Where a part starts in the markdown. */
  function Key(p: PartValue): int {
    if p.lines.Some? then p.lines.value.first else 0
  }

  ghost predicate Ordered(items: seq<PartValue>) {
    forall i, j :: 0 <= i <= j < |items| ==> Key(items[i]) <= Key(items[j])
  }

  /** Each part follows the one before it, on the lines right after a blank one. */
  predicate Adjacent(p: PartValue, q: PartValue) {
    p.lines.Some? && q.lines.Some? && q.lines.value.first == p.lines.value.last + 1
  }

  /** On to the next part, or staying, or going back. */
  predicate OnOrBack(p: PartValue, q: PartValue) {
    Adjacent(p, q) || Key(q) <= Key(p)
  }

  ghost predicate Steps(items: seq<PartValue>) {
    forall i :: 0 < i < |items| ==> OnOrBack(items[i - 1], items[i])
  }

  lemma OrderedJoin(a: seq<PartValue>, b: seq<PartValue>)
    requires Ordered(a) && Ordered(b)
    requires a != [] && b != [] ==> Key(Last(a)) <= Key(b[0])
    ensures Ordered(a + b)
  {
    hide Key;
    forall i, j | 0 <= i <= j < |a + b|
      ensures Key((a + b)[i]) <= Key((a + b)[j])
    {
      if i < |a| <= j {
        assert Key(a[i]) <= Key(Last(a)) && Key(b[0]) <= Key(b[j - |a|]);
      }
    }
  }

  lemma StepsJoin(a: seq<PartValue>, b: seq<PartValue>)
    requires Steps(a) && Steps(b)
    requires a != [] && b != [] ==> OnOrBack(Last(a), b[0])
    ensures Steps(a + b)
  {
    hide OnOrBack;
  }

  // ----- Grouping -----

  /** The group repeats the one before it, or starts no earlier than that one ends. */
  ghost predicate GroupStep(a: GroupValue, b: GroupValue)
    requires a.items != [] && b.items != []
  {
    a == b || Key(Last(a.items)) <= Key(b.items[0])
  }

  ghost predicate GroupOk(g: GroupValue) {
    g.items != [] && Ordered(g.items) && Steps(g.items)
  }

  ghost predicate GroupsOrdered(groups: seq<GroupValue>) {
    && (forall k :: 0 <= k < |groups| ==> GroupOk(groups[k]))
    && (forall k :: 0 < k < |groups| ==> GroupStep(groups[k - 1], groups[k]))
  }

  lemma GroupsOrderedSnoc(groups: seq<GroupValue>, g: GroupValue)
    requires GroupsOrdered(groups) && GroupOk(g)
    requires groups != [] ==> GroupStep(Last(groups), g)
    ensures GroupsOrdered(groups + [g])
  {
    hide GroupOk, GroupStep;
    var all := groups + [g];
    assert forall k :: 0 <= k < |groups| ==> all[k] == groups[k];
    assert all[|groups|] == g;
  }

  /** What grouping keeps of parts that follow one another. */
  ghost predicate Tracked(g: Grouping, kept: seq<PartValue>) {
    && GroupsOrdered(g.groups) && Steps(Items(g.groups))
    && (kept == [] <==> g.groups == [])
    && (kept != [] ==> Last(g.groups).items != [] && Last(Last(g.groups).items) == Last(kept))
    && (g.groups != [] ==> Items(g.groups) != [] && Last(Items(g.groups)) == Last(Last(g.groups).items))
  }

  lemma OneItemOk(p: PartValue, level: int, title: string)
    ensures GroupOk(GroupValue(level, title, [p]))
  {
  }

  lemma {:induction false} AddedGroup(groups: seq<GroupValue>, g: GroupValue)
    requires GroupsOrdered(groups) && Steps(Items(groups)) && GroupOk(g)
    requires groups != [] ==>
               && GroupStep(Last(groups), g) && OnOrBack(Last(Last(groups).items), g.items[0])
               && Items(groups) != [] && Last(Items(groups)) == Last(Last(groups).items)
    requires groups == [] ==> Items(groups) == []
    ensures GroupsOrdered(groups + [g]) && Steps(Items(groups + [g]))
    ensures Items(groups + [g]) != [] && Last(Items(groups + [g])) == Last(g.items)
  {
    hide Items, GroupStep, OnOrBack, GroupsOrdered, Ordered, Steps;
    GroupsOrderedSnoc(groups, g);
    ItemsSnoc(groups, g);
    StepsJoin(Items(groups), g.items);
  }

  lemma RepeatedGroup(g: GroupValue)
    requires GroupOk(g)
    ensures GroupStep(g, g) && OnOrBack(Last(g.items), g.items[0])
  {
  }

  lemma NextGroup(g: GroupValue, p: PartValue, h: GroupValue)
    requires g.items != [] && h.items == [p] && Adjacent(Last(g.items), p) && Key(Last(g.items)) <= Key(p)
    ensures GroupStep(g, h) && OnOrBack(Last(g.items), h.items[0])
  {
  }

  lemma ExtendedGroup(groups: seq<GroupValue>, p: PartValue)
    requires groups != [] && GroupsOrdered(groups) && Steps(Items(groups))
    requires Items(groups) != [] && Last(Items(groups)) == Last(Last(groups).items)
    requires |groups| > 1 ==> groups[|groups| - 2] != Last(groups)
    requires Adjacent(Last(Last(groups).items), p) && Key(Last(Last(groups).items)) <= Key(p)
    ensures var last := Last(groups).(items := Last(groups).items + [p]);
            var r := groups[..|groups| - 1] + [last];
            && GroupsOrdered(r) && Steps(Items(r))
            && Items(r) != [] && Last(Items(r)) == p
  {
    hide Items, Key, OnOrBack;
    var init, prev := groups[..|groups| - 1], Last(groups);
    var last := prev.(items := prev.items + [p]);
    assert groups == init + [prev];
    ItemsSnoc(init, prev);
    ItemsSnoc(init, last);
    assert Items(init + [last]) == Items(groups) + [p];
    ExtendedIsOk(prev, p);
    GroupsOrderedInit(groups);
    if init != [] {
      assert GroupStep(groups[|groups| - 2], groups[|groups| - 1]);
      assert GroupStep(Last(init), last);
    }
    hide GroupOk, GroupStep, GroupsOrdered, Ordered, Steps;
    GroupsOrderedSnoc(init, last);
    OneStep(Last(Items(groups)), p);
    StepsJoin(Items(groups), [p]);
  }

  lemma GroupsOrderedInit(groups: seq<GroupValue>)
    requires groups != [] && GroupsOrdered(groups)
    ensures GroupsOrdered(groups[..|groups| - 1])
  {
    hide GroupOk, GroupStep;
  }

  lemma OneStep(q: PartValue, p: PartValue)
    requires Adjacent(q, p)
    ensures OnOrBack(q, p) && Steps([p])
  {
  }

  lemma ExtendedIsOk(g: GroupValue, p: PartValue)
    requires GroupOk(g) && Adjacent(Last(g.items), p) && Key(Last(g.items)) <= Key(p)
    ensures GroupOk(g.(items := g.items + [p]))
  {
    hide Key;
    OrderedJoin(g.items, [p]);
    OneStep(Last(g.items), p);
    StepsJoin(g.items, [p]);
  }

  /** The open group is not a repetition: the one before it is another. */
  ghost predicate OpenIsNew(g: Grouping) {
    g.open && |g.groups| > 1 ==> g.groups[|g.groups| - 2] != Last(g.groups)
  }

  lemma AddTracked(g: Grouping, kept: seq<PartValue>, p: PartValue)
    requires g.open ==> g.groups != []
    requires Tracked(g, kept) && OpenIsNew(g) && p.content != ""
    requires kept != [] ==> Adjacent(Last(kept), p) && Key(Last(kept)) < Key(p)
    ensures Tracked(AddPart(g, p), kept + [p]) && OpenIsNew(AddPart(g, p))
  {
    hide Items, Steps, Ordered, Key, Adjacent, GroupStep;
    var added := if p.faq then GroupValue(0, p.faqId, [p]) else NewGroup(p);
    OneItemOk(p, added.level, added.title);
    assert Items([]) == [] by { NoItems(); }
    if p.faq && g.open {
      RepeatedGroup(Last(g.groups));
      AddedGroup(g.groups, Last(g.groups));
      NextGroup(Last(g.groups), p, added);
      hide GroupsOrdered, GroupOk;
      AddedGroup(g.groups + [Last(g.groups)], added);
    } else if !p.faq && g.open && (TitleLevel(p) == 0 || p.nesting != 0) {
      ExtendedGroup(g.groups, p);
      ExtendedIsNew(g, p);
    } else {
      if g.groups != [] {
        NextGroup(Last(g.groups), p, added);
        LaterGroupDiffers(Last(g.groups), p, added);
      }
      AddedGroup(g.groups, added);
    }
  }

  lemma LaterGroupDiffers(g: GroupValue, p: PartValue, h: GroupValue)
    requires g.items != [] && h.items == [p] && Key(Last(g.items)) < Key(p)
    ensures g != h
  {
  }

  lemma ExtendedIsNew(g: Grouping, p: PartValue)
    requires g.groups != [] && GroupsOrdered(g.groups) && Key(Last(Last(g.groups).items)) < Key(p)
    requires |g.groups| > 1 ==> g.groups[|g.groups| - 2] != Last(g.groups)
    ensures var last := Last(g.groups).(items := Last(g.groups).items + [p]);
            |g.groups| > 1 ==> g.groups[|g.groups| - 2] != last
  {
    if |g.groups| > 1 {
      var a, b := g.groups[|g.groups| - 2], Last(g.groups);
      assert GroupOk(a) && GroupOk(b) && GroupStep(a, b);
      assert Key(Last(a.items)) <= Key(b.items[0]) <= Key(Last(b.items));
    }
  }

  /** Parts with content, each on the lines after the one before. */
  ghost predicate InPlace(kept: seq<PartValue>) {
    forall i :: 0 < i < |kept| ==> Adjacent(kept[i - 1], kept[i]) && Key(kept[i - 1]) < Key(kept[i])
  }

  lemma {:induction false} GroupingTracked(parts: seq<PartValue>)
    requires InPlace(Kept(parts))
    ensures Tracked(GroupParts(parts), Kept(parts)) && OpenIsNew(GroupParts(parts))
  {
    hide Tracked, OpenIsNew, AddPart, Kept, InPlace;
    if parts == [] {
      NothingTracked();
    } else {
      var init, p := parts[..|parts| - 1], Last(parts);
      assert parts == init + [p];
      KeptSnoc(init, p);
      InPlaceInit(Kept(init), p);
      GroupingTracked(init);
      if p.content == "" {
        assert Kept(init) + [] == Kept(init);
        AddEmptyPart(GroupParts(init), p);
      } else {
        AddTracked(GroupParts(init), Kept(init), p);
      }
    }
  }

  lemma NothingTracked()
    ensures Kept([]) == [] && Tracked(GroupParts([]), []) && OpenIsNew(GroupParts([]))
  {
  }

  lemma InPlaceInit(kept: seq<PartValue>, p: PartValue)
    ensures InPlace(kept + [p]) ==> InPlace(kept)
    ensures InPlace(kept + [p]) && kept != [] ==> Adjacent(Last(kept), p) && Key(Last(kept)) < Key(p)
    ensures InPlace(kept + []) ==> InPlace(kept)
  {
    hide Adjacent, Key;
    assert kept + [] == kept;
    if InPlace(kept + [p]) {
      var all := kept + [p];
      assert forall i :: 0 <= i < |kept| ==> all[i] == kept[i];
      assert kept != [] ==> all[|kept| - 1] == Last(kept) && all[|kept|] == p;
    }
  }

  // ----- Title merging -----

  /** Groups whose parts are in order and none of which starts before the one before it. */
  ghost predicate StartsOrdered(groups: seq<GroupValue>) {
    && (forall k :: 0 <= k < |groups| ==> groups[k].items != [] && Ordered(groups[k].items))
    && (forall k :: 0 < k < |groups| ==> Key(groups[k - 1].items[0]) <= Key(groups[k].items[0]))
  }

  lemma StartsOrderedCons(g: GroupValue, rest: seq<GroupValue>)
    requires g.items != [] && Ordered(g.items) && StartsOrdered(rest)
    requires rest != [] ==> Key(g.items[0]) <= Key(rest[0].items[0])
    ensures StartsOrdered([g] + rest)
  {
    hide Key, Ordered;
  }

  /** All groups from i on but the last one before j are a single heading. */
  lemma RunOfTitles(groups: seq<GroupValue>, i: nat)
    requires i < |groups| && PureTitle(groups[i])
    ensures forall k :: i <= k < RunEnd(groups, i) - 1 ==> PureTitle(groups[k])
  {
    TitleRunIsPure(groups, i + 1, groups[i].level);
  }

  lemma {:induction false} RunOrdered(groups: seq<GroupValue>, i: nat, m: nat)
    requires GroupsOrdered(groups) && i < m <= |groups|
    requires forall k :: i <= k < m - 1 ==> PureTitle(groups[k])
    ensures var items := Items(groups[i..m]);
            && items != [] && Ordered(items)
            && items[0] == groups[i].items[0] && Last(items) == Last(groups[m - 1].items)
    decreases m
  {
    hide Items, Key, Ordered, GroupStep;
    var g := groups[m - 1];
    assert GroupOk(g);
    assert groups[i..m] == groups[i..m - 1] + [g];
    ItemsSnoc(groups[i..m - 1], g);
    if m == i + 1 {
      assert groups[i..m - 1] == [];
      assert Items([]) == [] by { NoItems(); }
      assert [] + g.items == g.items;
    } else {
      RunOrdered(groups, i, m - 1);
      assert GroupOk(groups[m - 2]) && GroupStep(groups[m - 2], groups[m - 1]);
      StepInOrder(groups[m - 2], g);
      OrderedJoin(Items(groups[i..m - 1]), g.items);
    }
  }

  /** A single heading is repeated in order too. */
  lemma StepInOrder(a: GroupValue, b: GroupValue)
    requires a.items != [] && b.items != [] && GroupStep(a, b) && PureTitle(a)
    ensures Key(Last(a.items)) <= Key(b.items[0])
  {
  }

  lemma NextStart(groups: seq<GroupValue>, i: nat, j: nat)
    requires GroupsOrdered(groups) && i < j < |groups|
    requires forall k :: i <= k < j - 1 ==> PureTitle(groups[k])
    ensures groups[i].items != [] && groups[j].items != [] && Key(groups[i].items[0]) <= Key(groups[j].items[0])
  {
    RunOrdered(groups, i, j);
    hide Items, Key;
    var a, b := groups[j - 1], groups[j];
    assert GroupOk(groups[i]) && GroupOk(a) && GroupOk(b) && GroupStep(a, b);
    var items := Items(groups[i..j]);
    assert Key(items[0]) <= Key(Last(items));
    if j == i + 1 {
      assert Key(a.items[0]) <= Key(Last(a.items));
    } else {
      RunOrdered(groups, i, j - 1);
      var before := Items(groups[i..j - 1]);
      assert GroupOk(groups[j - 2]) && GroupStep(groups[j - 2], a);
      StepInOrder(groups[j - 2], a);
      assert Key(before[0]) <= Key(Last(before));
      assert Key(a.items[0]) <= Key(Last(a.items));
    }
  }

  lemma {:induction false} MergedOrdered(groups: seq<GroupValue>, i: nat)
    requires GroupsOrdered(groups) && i <= |groups|
    ensures StartsOrdered(MergeTitles(groups, i))
    ensures i < |groups| ==>
              var m := MergeTitles(groups, i);
              m != [] && m[0].items != [] && groups[i].items != [] && m[0].items[0] == groups[i].items[0]
    decreases |groups| - i
  {
    hide Items, Key, Ordered, RunEnd, GroupsOrdered, StartsOrdered, Steps;
    if i == |groups| {
      NothingStarts(groups);
    } else {
      MergeTitlesUnfolds(groups, i);
      var j := if PureTitle(groups[i]) then RunEnd(groups, i) else i + 1;
      if PureTitle(groups[i]) {
        RunOfTitles(groups, i);
      }
      RunOrdered(groups, i, j);
      SingleItems(groups, i);
      MergedOrdered(groups, j);
      if j < |groups| {
        NextStart(groups, i, j);
      }
      StartsOrderedCons(MergeTitles(groups, i)[0], MergeTitles(groups, j));
    }
  }

  lemma {:induction false} NothingStarts(groups: seq<GroupValue>)
    ensures StartsOrdered(MergeTitles(groups, |groups|))
  {
  }

  lemma SingleItems(groups: seq<GroupValue>, i: nat)
    requires i < |groups|
    ensures Items(groups[i..i + 1]) == groups[i].items
  {
    assert groups[i..i + 1] == [] + [groups[i]];
    ItemsSnoc([], groups[i]);
  }

  // ----- Splitting and packing -----

  lemma ExpandKeepsKey(cfg: Config, p: PartValue)
    ensures forall q <- Expand(cfg, p) :: Key(q) == Key(p)
  {
    hide Split;
  }

  lemma {:induction false} ExpandOrdered(cfg: Config, items: seq<PartValue>)
    requires Ordered(items)
    ensures Ordered(ExpandAll(cfg, items))
    ensures forall q <- ExpandAll(cfg, items) :: Key(items[0]) <= Key(q) <= Key(Last(items))
  {
    if items != [] {
      hide Key, Expand;
      var init, p := items[..|items| - 1], Last(items);
      ExpandOrdered(cfg, init);
      ExpandKeepsKey(cfg, p);
      hide ExpandAll;
      var a, b := ExpandAll(cfg, init), Expand(cfg, p);
      assert ExpandAll(cfg, items) == a + b by { ExpandLast(cfg, items); }
      if a != [] {
        assert Last(a) in a && Key(Last(init)) <= Key(p);
      }
      if b != [] {
        assert b[0] in b;
      }
      assert forall i :: 0 <= i < |b| ==> b[i] in b;
      OrderedJoin(a, b);
    }
  }

  lemma {:induction false} ExpandLast(cfg: Config, items: seq<PartValue>)
    requires items != []
    ensures ExpandAll(cfg, items) == ExpandAll(cfg, items[..|items| - 1]) + Expand(cfg, Last(items))
  {
  }

  /** Chunks keep the lines of the part they come from. */
  lemma ExpandKeepsLines(cfg: Config, p: PartValue)
    ensures forall q <- Expand(cfg, p) :: q.lines == p.lines
  {
    hide Split;
  }

  lemma SameLines(p: PartValue, q: PartValue, a: PartValue, b: PartValue)
    requires p.lines == a.lines && q.lines == b.lines
    ensures OnOrBack(p, q) <==> OnOrBack(a, b)
    ensures OnOrBack(p, p)
  {
  }

  lemma {:induction false} ExpandSteps(cfg: Config, items: seq<PartValue>)
    requires Steps(items) && AllContent(items)
    ensures Steps(ExpandAll(cfg, items))
    ensures items != [] ==> ExpandAll(cfg, items) != [] && Last(ExpandAll(cfg, items)).lines == Last(items).lines
  {
    if items != [] {
      hide Split, OnOrBack, ExpandAll, Expand;
      var init, p := items[..|items| - 1], Last(items);
      ExpandSteps(cfg, init);
      ExpandNonEmpty(cfg, p);
      ExpandKeepsLines(cfg, p);
      ExpandLast(cfg, items);
      var a, b := ExpandAll(cfg, init), Expand(cfg, p);
      forall i | 0 < i < |b|
        ensures OnOrBack(b[i - 1], b[i])
      {
        assert b[i - 1] in b && b[i] in b;
        SameLines(b[i - 1], b[i], b[i - 1], b[i - 1]);
      }
      assert b[0] in b && Last(b) in b;
      if init != [] {
        SameLines(Last(a), b[0], Last(init), p);
      }
      StepsJoin(a, b);
    } else {
      NothingToExpand(cfg);
    }
  }

  lemma {:induction false} NothingToExpand(cfg: Config)
    ensures ExpandAll(cfg, []) == []
  {
  }

  /** The first piece is the earliest. */
  ghost predicate FirstLeast(run: Run) {
    run.pieces != [] && forall x <- run.pieces :: Key(run.pieces[0].part) <= Key(x.part)
  }

  ghost predicate AllFirstLeast(runs: seq<Run>) {
    forall k :: 0 <= k < |runs| ==> FirstLeast(runs[k])
  }

  lemma AppendFirstLeast(open: Option<Run>, piece: Piece, titles: seq<string>)
    requires open.Some? ==> FirstLeast(open.value) && Key(open.value.pieces[0].part) <= Key(piece.part)
    ensures FirstLeast(Append(open, piece, titles))
    ensures Append(open, piece, titles).pieces[0] == if open.Some? then open.value.pieces[0] else piece
  {
  }

  lemma {:induction false} AppendAllFirstLeast(open: Option<Run>, pieces: seq<Piece>, titles: seq<string>)
    requires open.Some? ==> FirstLeast(open.value)
    requires pieces != []
    requires Ordered(PartsOf(pieces))
    requires open.Some? ==> Key(open.value.pieces[0].part) <= Key(pieces[0].part)
    ensures var r := AppendAll(open, pieces, titles);
            r.Some? && FirstLeast(r.value)
            && r.value.pieces[0] == if open.Some? then open.value.pieces[0] else pieces[0]
  {
    hide Key, Append, FirstLeast, Ordered;
    var init, last := pieces[..|pieces| - 1], Last(pieces);
    OrderedPieces(pieces);
    AppendAllLast(open, pieces, titles);
    hide AppendAll;
    if init == [] {
      AppendNothing(open, titles);
    } else {
      AppendAllFirstLeast(open, init, titles);
    }
    AppendFirstLeast(AppendAll(open, init, titles), last, titles);
  }

  lemma {:induction false} AppendAllLast(open: Option<Run>, pieces: seq<Piece>, titles: seq<string>)
    requires pieces != []
    ensures AppendAll(open, pieces, titles)
         == Some(Append(AppendAll(open, pieces[..|pieces| - 1], titles), Last(pieces), titles))
  {
  }

  lemma OrderedPieces(pieces: seq<Piece>)
    requires pieces != [] && Ordered(PartsOf(pieces))
    ensures Ordered(PartsOf(pieces[..|pieces| - 1]))
    ensures Key(pieces[0].part) <= Key(Last(pieces).part)
    ensures forall x <- pieces :: Key(x.part) <= Key(Last(pieces).part)
  {
    hide Key;
    var ps := PartsOf(pieces);
    assert forall i :: 0 <= i < |pieces| ==> Key(ps[i]) <= Key(ps[|ps| - 1]);
  }

  /** Filling: every run starts with its earliest piece, and holds processed pieces only. */
  ghost predicate FillingOrdered(f: Filling, pieces: seq<Piece>) {
    && AllFirstLeast(Sealed(f.done, f.open))
    && (f.open.Some? ==> f.open.value.pieces != [] && f.open.value.pieces[0] in pieces)
  }

  lemma {:induction false} FillAllOrdered(cfg: Config, pieces: seq<Piece>, titles: seq<string>)
    requires Ordered(PartsOf(pieces))
    ensures FillingOrdered(FillAll(cfg, pieces, titles), pieces)
  {
    hide Key, Ordered, Append, PartsOf, FillingOrdered, Fill, FillAll;
    if pieces == [] {
      FillNone(cfg, titles);
    } else {
      var init, last := pieces[..|pieces| - 1], Last(pieces);
      assert init + [last] == pieces;
      OrderedPieces(pieces);
      FillLast(cfg, pieces, titles);
      FillAllOrdered(cfg, init, titles);
      FillStepOrdered(cfg, FillAll(cfg, init, titles), init, last, titles);
    }
  }

  lemma {:induction false} FillNone(cfg: Config, titles: seq<string>)
    ensures FillingOrdered(FillAll(cfg, [], titles), [])
  {
  }

  lemma {:induction false} FillLast(cfg: Config, pieces: seq<Piece>, titles: seq<string>)
    requires pieces != []
    ensures FillAll(cfg, pieces, titles) == Fill(cfg, FillAll(cfg, pieces[..|pieces| - 1], titles), Last(pieces), titles)
  {
    hide Fill;
  }

  lemma FillStepOrdered(cfg: Config, f: Filling, init: seq<Piece>, piece: Piece, titles: seq<string>)
    requires FillingOrdered(f, init) && forall x <- init :: Key(x.part) <= Key(piece.part)
    ensures FillingOrdered(Fill(cfg, f, piece, titles), init + [piece])
  {
    hide Key, FirstLeast, Append;
    var r := Fill(cfg, f, piece, titles);
    var before := Sealed(f.done, f.open);
    if f.open.Some? {
      assert FirstLeast(before[|f.done|]);
      assert before[|f.done|] == f.open.value;
    }
    assert forall k :: 0 <= k < |f.done| ==> before[k] == f.done[k];
    AppendFirstLeast(if r.done == f.done && f.open.Some? then f.open else None, piece, titles);
    AppendFirstLeast(None, piece, titles);
  }

  /** Packing: runs start with their earliest piece, and the open one starts no later than
      the last group. */
  ghost predicate PackingOrdered(groups: seq<GroupValue>, st: Packing) {
    && OpenRunNonEmpty(st)
    && AllFirstLeast(Sealed(st.done, st.open))
    && (st.open.Some? ==>
          groups != [] && Last(groups).items != []
          && Key(st.open.value.pieces[0].part) <= Key(Last(groups).items[0]))
  }

  lemma {:induction false} PackAllOrdered(cfg: Config, groups: seq<GroupValue>)
    requires StartsOrdered(groups)
    ensures PackingOrdered(groups, PackAll(cfg, groups))
  {
    hide Pack, Key, Ordered, PackingOrdered, StartsOrdered;
    if groups == [] {
      PackNone(cfg);
    } else {
      hide PackAll;
      var init := groups[..|groups| - 1];
      assert groups == init + [Last(groups)];
      PackAllUnfolds(cfg, groups);
      StartsInit(groups);
      PackAllOrdered(cfg, init);
      PackOrdered(cfg, init, PackAll(cfg, init), Last(groups), |groups| - 1);
    }
  }

  lemma {:induction false} PackNone(cfg: Config)
    ensures PackingOrdered([], PackAll(cfg, []))
  {
  }

  lemma StartsInit(groups: seq<GroupValue>)
    requires groups != [] && StartsOrdered(groups)
    ensures var init := groups[..|groups| - 1];
            && StartsOrdered(init) && Last(groups).items != [] && Ordered(Last(groups).items)
            && (init != [] ==> Last(init).items != [] && Key(Last(init).items[0]) <= Key(Last(groups).items[0]))
  {
    hide Key, Ordered;
  }

  lemma PackOrdered(cfg: Config, init: seq<GroupValue>, st: Packing, g: GroupValue, index: nat)
    requires PackingOrdered(init, st) && g.items != [] && Ordered(g.items)
    requires init != [] && Last(init).items != [] ==> Key(Last(init).items[0]) <= Key(g.items[0])
    ensures PackingOrdered(init + [g], Pack(cfg, st, g, index))
  {
    hide Key, Ordered, FirstLeast, AppendAll, FillAll, ExpandAll, Tag, Enter, Titles, CanMerge;
    var titles := Titles(Enter(st.stack, g));
    var before := Sealed(st.done, st.open);
    if CanMerge(cfg, st, g) {
      var pieces := Tag(g.items, index);
      PartsOfTag(g.items, index);
      if st.open.Some? {
        assert FirstLeast(before[|st.done|]);
      }
      AppendAllFirstLeast(st.open, pieces, titles);
      assert forall k :: 0 <= k < |st.done| ==> before[k] == st.done[k];
      JoinFirstLeast(st.done, [AppendAll(st.open, pieces, titles).value]);
    } else {
      var parts := ExpandAll(cfg, g.items);
      ExpandOrdered(cfg, g.items);
      PartsOfTag(parts, index);
      FillAllOrdered(cfg, Tag(parts, index), titles);
      var f := FillAll(cfg, Tag(parts, index), titles);
      assert Sealed(before + f.done, f.open) == before + Sealed(f.done, f.open);
      JoinFirstLeast(before, Sealed(f.done, f.open));
    }
  }

  lemma JoinFirstLeast(a: seq<Run>, b: seq<Run>)
    requires AllFirstLeast(a) && AllFirstLeast(b)
    ensures AllFirstLeast(a + b)
  {
    hide FirstLeast;
  }

  /** Every output part of a document in place starts with its earliest piece. */
  lemma {:induction false} RunsStartFirst(cfg: Config, parts: seq<PartValue>)
    requires InPlace(Kept(parts))
    ensures AllFirstLeast(Rechunk(cfg, parts))
  {
    hide InPlace, Kept, StartsOrdered, GroupsOrdered, AllFirstLeast, Items, Steps;
    GroupingTracked(parts);
    MergedOrdered(GroupParts(parts).groups, 0);
    PackAllOrdered(cfg, Groups(parts));
  }

  /** Between two pieces the output goes on to the next part, or stays, or jumps back. */
  lemma {:induction false} PiecesGoOnOrBack(cfg: Config, parts: seq<PartValue>)
    requires InPlace(Kept(parts))
    ensures Steps(PartsOf(RunsPieces(Rechunk(cfg, parts))))
  {
    hide InPlace, Kept, Items, GroupsOrdered, Steps, MergeTitles, PackedRuns, ExpandAll, RunsPieces, PartsOf;
    var groups := GroupParts(parts).groups;
    GroupingTracked(parts);
    GroupPartsHaveContent(parts);
    ItemsHaveContent(groups);
    ExpandSteps(cfg, Items(groups));
    MergeTitlesKeepsItems(groups, 0);
    assert groups[0..] == groups;
    PackedPieces(cfg, MergeTitles(groups, 0));
  }
}
