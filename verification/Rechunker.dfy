/** The rechunker as it runs: parts and groups are objects, token counts are cached
    in them, and an open part is extended in place. Each method is proved against
    the functions of module Chunking. */
module Rechunker {
  import opened Common
  import opened Splitter
  import opened Chunking
  import opened GroupingLaws
  import opened PageLists

  class Part {
    var content: string
    var lines: Option<Span>
    var pages: Option<ListId>
    var tokens: Option<nat>
    const level: Option<int>
    const nesting: int
    const faq: bool
    const faqId: string
    const splitted: bool
    const titles: Option<seq<string>>
    /** A binary asset, which has no place in the markdown. */
    const asset: bool

    constructor (v: PartValue, tokens: Option<nat>)
      ensures Value() == v && this.tokens == tokens && !asset
    {
      asset := false;
      content, lines, pages, level, nesting := v.content, v.lines, v.pages, v.level, v.nesting;
      faq, faqId, splitted, titles := v.faq, v.faqId, v.splitted, v.titles;
      this.tokens := tokens;
    }

    constructor Asset(v: PartValue)
      ensures Value() == v && tokens.None? && asset
    {
      asset, tokens := true, None;
      content, lines, pages, level, nesting := v.content, v.lines, v.pages, v.level, v.nesting;
      faq, faqId, splitted, titles := v.faq, v.faqId, v.splitted, v.titles;
    }

    /** The part without its token cache. */
    ghost function Value(): PartValue
      reads this`content, this`lines, this`pages
    {
      PartValue(content, level, nesting, faq, faqId, splitted, lines, pages, titles)
    }

    /** The cached token count, if any, is that of the live content. */
    ghost predicate Cached(tok: Tokenizer)
      reads this`content, this`tokens
    {
      tokens.Some? ==> tokens.value == tok(content)
    }
  }

  class Group {
    const level: int
    const title: string
    var items: seq<Part>
    var tokens: Option<nat>

    constructor (level: int, title: string, items: seq<Part>)
      ensures this.level == level && this.title == title && this.items == items && tokens.None?
    {
      this.level, this.title, this.items, tokens := level, title, items, None;
    }
  }

  ghost function Values(parts: seq<Part>): (r: seq<PartValue>)
    reads parts`content, parts`lines, parts`pages
    ensures |r| == |parts| && forall i :: 0 <= i < |r| ==> r[i] == parts[i].Value()
  {
    if parts == [] then [] else Values(parts[..|parts| - 1]) + [Last(parts).Value()]
  }

  ghost predicate AllCached(tok: Tokenizer, parts: set<Part>)
    reads parts`content, parts`tokens
  {
    forall p <- parts :: p.Cached(tok)
  }

  /** The group holds parts of the universe and shows the given value. */
  ghost predicate GroupShows(universe: set<Part>, g: Group, v: GroupValue)
    reads g`items, universe`content, universe`lines, universe`pages
  {
    && (forall p <- g.items :: p in universe)
    && v == GroupValue(g.level, g.title, Values(g.items))
  }

  ghost predicate Shows(universe: set<Part>, groups: seq<Group>, vs: seq<GroupValue>)
    reads groups`items, universe`content, universe`lines, universe`pages
  {
    |groups| == |vs| && forall i :: 0 <= i < |vs| ==> GroupShows(universe, groups[i], vs[i])
  }

  ghost predicate GroupCached(cfg: Config, g: Group)
    reads g`items, g`tokens, g.items`content, g.items`lines, g.items`pages
  {
    g.tokens.Some? ==> g.tokens.value == SumTokens(cfg, Values(g.items))
  }

  class Rechunker {
    const cfg: Config
    /** The page lists that parts refer to; several parts may refer to the same one. */
    var pageLists: Lists

    constructor (size: int, overlap: int, tokenizer: Tokenizer, pageLists: Lists)
      ensures cfg == Config(tokenizer, size, overlap) && this.pageLists == pageLists
    {
      cfg, this.pageLists := Config(tokenizer, size, overlap), pageLists;
    }

    /** The page lists are what building these output parts made of those at the start. */
    ghost predicate ListsAfter(start: Lists, runs: seq<Run>)
      reads this`pageLists
    {
      pageLists == FoldRuns(start, runs)
    }

    // ----- Counting tokens -----

    method CountPart(p: Part) returns (n: nat)
      requires p.Cached(cfg.tokenizer)
      modifies p`tokens
      ensures n == cfg.tokenizer(p.content) && p.tokens == Some(n)
    {
      if p.tokens.Some? {
        return p.tokens.value;
      }
      n := cfg.tokenizer(p.content);
      p.tokens := Some(n);
    }

    method CountGroup(universe: set<Part>, g: Group) returns (n: nat)
      requires AllCached(cfg.tokenizer, universe) && forall p <- g.items :: p in universe
      requires GroupCached(cfg, g)
      modifies g`tokens, universe`tokens
      ensures n == SumTokens(cfg, Values(g.items)) && GroupCached(cfg, g)
      ensures AllCached(cfg.tokenizer, universe)
    {
      hide SumTokens, Values, AllCached;
      if g.tokens.Some? {
        return g.tokens.value;
      }
      n := CountParts(universe, g.items);
      g.tokens := Some(n);
    }

    method CountParts(universe: set<Part>, items: seq<Part>) returns (total: nat)
      requires AllCached(cfg.tokenizer, universe) && forall p <- items :: p in universe
      modifies universe`tokens
      ensures total == SumTokens(cfg, Values(items))
      ensures AllCached(cfg.tokenizer, universe)
    {
      hide SumTokens, Values;
      total := 0;
      ghost var vs := Values(items);
      SumTokensNothing(cfg, vs);
      for i := 0 to |items|
        invariant AllCached(cfg.tokenizer, universe)
        invariant total == SumTokens(cfg, vs[..i])
      {
        SumTokensNext(cfg, vs, i);
        var num := CountPart(items[i]);
        total := total + num;
      }
      assert vs[..|items|] == vs;
    }

    // ----- Grouping -----

    method ToGroups(parts: seq<Part>) returns (result: seq<Group>)
      ensures forall g <- result :: fresh(g) && g.tokens.None?
      ensures Shows((set p <- parts), result, GroupParts(Values(parts)).groups)
    {
      hide GroupParts, AddPart, Tracks, Values;
      ghost var universe := set p <- parts;
      ghost var vs := Values(parts);
      ghost var g := Grouping([], false);
      result := [];
      var curr: Group? := null;
      TracksNothing(universe);
      for i := 0 to |parts|
        invariant g == GroupParts(vs[..i])
        invariant Tracks(universe, result, curr, g)
        invariant (forall x <- result :: fresh(x)) && (curr != null ==> fresh(curr))
      {
        GroupPartsNext(vs, i);
        if parts[i].content == "" {
          continue;
        }
        ghost var before := result;
        result, curr := GroupOne(universe, result, curr, parts[i], g);
        assert forall x <- result :: x in before || fresh(x);
        g := AddPart(g, vs[i]);
      }
      assert vs[..|parts|] == vs;
      TracksShows(universe, result, curr, g);
    }

    /** One part with content. */
    method GroupOne(ghost universe: set<Part>, groups: seq<Group>, open: Group?, part: Part, ghost g: Grouping)
      returns (result: seq<Group>, curr: Group?)
      requires Tracks(universe, groups, open, g) && part in universe && part.content != ""
      modifies if open == null then {} else {open}
      ensures Tracks(universe, result, curr, AddPart(g, part.Value()))
      ensures forall x <- result :: x in groups || fresh(x)
      ensures curr != null ==> curr == open || fresh(curr)
    {
      hide Values, GroupShows;
      result, curr := groups, open;
      var level, title := 0, "";
      if part.level.Some? {
        level, title := part.level.value, part.content;
      }
      if part.faq {
        if curr != null {
          result := result + [curr];
          curr := null;
        }
        var group := new Group(0, part.faqId, [part]);
        OneGroup(universe, group, part);
        result := result + [group];
        return;
      }
      if curr == null {
        curr := new Group(level, title, [part]);
        OneGroup(universe, curr, part);
        result := result + [curr];
        return;
      }
      if level == 0 || part.nesting != 0 {
        AddToOpen(universe, result, curr, part, g.groups);
        return;
      }
      curr := new Group(level, title, [part]);
      OneGroup(universe, curr, part);
      result := result + [curr];
    }

    method AddToOpen(ghost universe: set<Part>, ghost result: seq<Group>, curr: Group, part: Part,
                     ghost vs: seq<GroupValue>)
      requires Shows(universe, result, vs) && result != [] && curr == Last(result) && part in universe
      requires forall k :: 0 <= k < |result| - 1 ==> result[k] != curr
      modifies curr`items
      ensures Shows(universe, result, vs[..|vs| - 1] + [Last(vs).(items := Last(vs).items + [part.Value()])])
    {
      hide Values;
      ghost var items := curr.items;
      assert GroupShows(universe, curr, Last(vs));
      curr.items := curr.items + [part];
      ValuesSnoc(items, part);
      assert GroupShows(universe, curr, Last(vs).(items := Last(vs).items + [part.Value()]));
      assert forall k :: 0 <= k < |result| - 1 ==> GroupShows(universe, result[k], vs[k]);
      hide GroupShows;
    }

    // ----- Merging title-only groups -----

    predicate IsPureTitleGroup(g: Group)
      reads g`items
    {
      g.level > 0 && |g.items| == 1
    }

    method MergeConsecutiveTitleGroups(ghost universe: set<Part>, groups: seq<Group>, ghost vs: seq<GroupValue>)
      returns (newGroups: seq<Group>)
      requires Shows(universe, groups, vs)
      ensures Shows(universe, newGroups, MergeTitles(vs, 0))
      ensures forall g <- newGroups :: g in groups || (fresh(g) && g.tokens.None?)
    {
      hide MergeTitles, RunEnd, Items, Values, Shows, GroupShows, PureTitle;
      ShowsNothing(universe);
      ShowsLengths(universe, groups, vs);
      newGroups := [];
      ghost var merged: seq<GroupValue> := [];
      var i := 0;
      while i < |groups|
        invariant 0 <= i <= |groups|
        invariant merged + MergeTitles(vs, i) == MergeTitles(vs, 0)
        invariant Shows(universe, newGroups, merged)
        invariant forall g <- newGroups :: g in groups || (fresh(g) && g.tokens.None?)
      {
        ghost var v;
        var group, j;
        group, j, v := MergeAt(universe, groups, vs, i);
        ShowsOne(universe, newGroups, merged, group, v);
        newGroups := newGroups + [group];
        merged := merged + [v];
        i := j;
      }
      MergeTitlesNothing(vs);
      assert merged + [] == merged;
    }

    /** The group at i, merged with those it takes in, and where they end. */
    method MergeAt(ghost universe: set<Part>, groups: seq<Group>, ghost vs: seq<GroupValue>, i: nat)
      returns (group: Group, j: nat, ghost v: GroupValue)
      requires Shows(universe, groups, vs) && i < |groups| == |vs|
      ensures i < j <= |vs| && MergeTitles(vs, i) == [v] + MergeTitles(vs, j)
      ensures GroupShows(universe, group, v)
      ensures group in groups || (fresh(group) && group.tokens.None?)
    {
      hide MergeTitles, RunEnd, Items, Values, Shows, PureTitle;
      MergeTitlesUnfolds(vs, i);
      ShowsAt(universe, groups, vs, i);
      if !IsPureTitleGroup(groups[i]) {
        return groups[i], i + 1, vs[i];
      }
      var items;
      items, j := AbsorbGroups(universe, groups, vs, i);
      v := vs[i].(items := Items(vs[i..j]));
      group := new Group(groups[i].level, groups[i].title, items);
    }

    /** The items that the title-only group at i takes in, and where they end. */
    method AbsorbGroups(ghost universe: set<Part>, groups: seq<Group>, ghost vs: seq<GroupValue>, i: nat)
      returns (items: seq<Part>, j: nat)
      requires Shows(universe, groups, vs) && i < |groups| && PureTitle(vs[i])
      ensures j == RunEnd(vs, i)
      ensures Values(items) == Items(vs[i..j]) && forall p <- items :: p in universe
    {
      hide Items, Values, GroupShows, TitleRun;
      items, j := [], i;
      ShowsAt(universe, groups, vs, i);
      items := groups[i].items;
      OneItem(vs, i);
      j := i + 1;
      while j < |groups|
        invariant i < j <= |groups|
        invariant TitleRun(vs, j, vs[i].level) == TitleRun(vs, i + 1, vs[i].level)
        invariant Values(items) == Items(vs[i..j]) && forall p <- items :: p in universe
      {
        ShowsAt(universe, groups, vs, j);
        TitleRunUnfolds(vs, j, vs[i].level);
        if !IsPureTitleGroup(groups[j]) || groups[j].level < groups[i].level {
          break;
        }
        ItemsNext(vs, i, j);
        ValuesAppend(items, groups[j].items);
        items := items + groups[j].items;
        j := j + 1;
      }
      TitleRunUnfolds(vs, j, vs[i].level);
      if j < |groups| {
        ShowsAt(universe, groups, vs, j);
        if !IsPureTitleGroup(groups[j]) && (groups[j].level == 0 || groups[j].level >= groups[i].level) {
          ItemsNext(vs, i, j);
          ValuesAppend(items, groups[j].items);
          items := items + groups[j].items;
          j := j + 1;
        }
      }
    }

    // ----- Building an output part -----

    method AppendPartToPart(part: Part, dest: Part?, titles: seq<string>, ghost open: Option<Run>, ghost piece: Piece)
      returns (r: Part)
      requires dest != null <==> open.Some?
      requires dest != null ==> open.value.pieces != [] && dest.Value() == Render(open.value)
      requires part.Value() == piece.part && part.Cached(cfg.tokenizer)
      modifies if dest == null then {} else {dest}
      modifies this`pageLists
      ensures r.Value() == Render(Append(open, piece, titles)) && r.Cached(cfg.tokenizer)
      ensures if dest == null then fresh(r) else r == dest
      ensures pageLists == Merged(old(pageLists), OpenPages(open), piece.part.pages)
    {
      hide Render, Append, RunPages;
      RenderAppend(open, piece, titles);
      if dest == null {
        var newTitles := if titles == [] then part.titles else Some(titles);
        r := new Part(PartValue(part.content, None, part.nesting, part.faq, part.faqId, part.splitted, part.lines,
                                part.pages, newTitles), part.tokens);
        return;
      }
      dest.content := dest.content + "\n\n" + part.content;
      MergeMdSourceMap(dest, part);
      MergePdfSourceMap(dest, part);
      dest.tokens := None;
      return dest;
    }

    method MergeMdSourceMap(dest: Part, src: Part)
      modifies dest`lines
      ensures dest.lines == MergeLines(old(dest.lines), old(src.lines))
    {
      var destMap, srcMap := dest.lines, src.lines;
      if srcMap.None? {
        return;
      }
      if destMap.None? {
        dest.lines := srcMap;
        return;
      }
      dest.lines := Some(Span(Min(destMap.value.first, srcMap.value.first), Max(destMap.value.last, srcMap.value.last)));
    }

    /** The list of src is taken over, or its entries are appended in place to that of dest,
        which other parts may share. */
    method MergePdfSourceMap(dest: Part, src: Part)
      modifies dest`pages, this`pageLists
      ensures dest.pages == Taken(old(dest.pages), old(src.pages))
      ensures pageLists == Merged(old(pageLists), old(dest.pages), old(src.pages))
    {
      hide Extend;
      var destMap, srcMap := dest.pages, src.pages;
      if srcMap.None? {
        return;
      }
      if destMap.None? {
        dest.pages := srcMap;
        return;
      }
      var newMap, items := Entries(pageLists, destMap), Entries(pageLists, srcMap);
      ghost var before := newMap;
      assert items[0..] == items;
      for i := 0 to |items|
        invariant Extend(newMap, items[i..]) == Extend(before, items)
        invariant dest.pages == destMap && pageLists == old(pageLists)
      {
        ExtendUnfolds(newMap, items, i);
        if items[i] !in newMap {
          newMap := newMap + [items[i]];
        }
      }
      ExtendUnfolds(newMap, items, |items|);
      pageLists := pageLists[destMap.value := newMap];
    }

    method AppendGroupToPart(items: seq<Part>, dest: Part?, titles: seq<string>, ghost open: Option<Run>,
                             ghost pieces: seq<Piece>, ghost start: Lists, ghost done: seq<Run>)
      returns (r: Part?)
      requires ListsAfter(start, Sealed(done, open))
      requires dest != null <==> open.Some?
      requires dest != null ==> open.value.pieces != [] && dest.Value() == Render(open.value)
      requires dest != null ==> dest !in items && dest.Cached(cfg.tokenizer)
      requires |pieces| == |items| && forall i :: 0 <= i < |items| ==> items[i].Value() == pieces[i].part
      requires forall p <- items :: p.Cached(cfg.tokenizer)
      modifies if dest == null then {} else {dest}
      modifies this`pageLists
      ensures ListsAfter(start, Sealed(done, AppendAll(open, pieces, titles)))
      ensures var run := AppendAll(open, pieces, titles);
              && (r != null <==> run.Some?)
              && (r != null ==> run.value.pieces != [] && r.Value() == Render(run.value) && r.Cached(cfg.tokenizer))
      ensures r == dest || (r != null && fresh(r))
    {
      hide AppendAll, Append, Render, FoldRuns, OpenPages, Merged, Sealed;
      r := dest;
      ghost var run := open;
      AppendNothingYet(open, pieces, titles);
      for i := 0 to |items|
        invariant run == AppendAll(open, pieces[..i], titles)
        invariant ListsAfter(start, Sealed(done, run))
        invariant r != null <==> run.Some?
        invariant r != null ==> run.value.pieces != [] && r.Value() == Render(run.value) && r.Cached(cfg.tokenizer)
        invariant r == dest || (r != null && fresh(r))
        invariant forall k :: 0 <= k < |items| ==> items[k].Value() == pieces[k].part
        invariant forall p <- items :: p.Cached(cfg.tokenizer)
      {
        AppendNext(open, pieces, titles, i);
        FoldAppendFirst(start, done, run, pieces[i], titles);
        r := AppendPartToPart(items[i], r, titles, run, pieces[i]);
        run := Some(Append(run, pieces[i], titles));
      }
      assert pieces[..|items|] == pieces;
    }

    // ----- Splitting large parts -----

    method SplitLargeParts(universe: set<Part>, items: seq<Part>) returns (parts: seq<Part>)
      requires AllCached(cfg.tokenizer, universe) && forall p <- items :: p in universe
      modifies universe`tokens
      ensures Values(parts) == ExpandAll(cfg, Values(items))
      ensures AllCached(cfg.tokenizer, universe)
      ensures forall p <- parts :: (p in universe || fresh(p)) && p.Cached(cfg.tokenizer)
    {
      hide ExpandAll, Values, Split;
      parts := [];
      ghost var vs := Values(items);
      ExpandNone(cfg, vs);
      for i := 0 to |items|
        invariant Values(parts) == ExpandAll(cfg, vs[..i])
        invariant AllCached(cfg.tokenizer, universe)
        invariant forall p <- parts :: (p in universe || fresh(p)) && p.Cached(cfg.tokenizer)
      {
        ExpandNext(cfg, vs, i);
        var part := items[i];
        var tokens := CountPart(part);
        if !part.faq && tokens > cfg.size {
          var chunks := RecursiveSplit(cfg.tokenizer, part.content, cfg.size, cfg.overlap, 0);
          var split := ChunkParts(part, chunks);
          ValuesAppend(parts, split);
          parts := parts + split;
        } else {
          ValuesSnoc(parts, part);
          parts := parts + [part];
        }
      }
      assert vs[..|items|] == vs;
    }

    /** The chunks of one part, each a part with the metadata of the whole. */
    method ChunkParts(part: Part, chunks: seq<string>) returns (parts: seq<Part>)
      ensures Values(parts) == SplitParts(part.Value(), chunks)
      ensures forall p <- parts :: fresh(p) && p.tokens.None?
    {
      parts := [];
      for i := 0 to |chunks|
        invariant |parts| == i && forall p <- parts :: fresh(p) && p.tokens.None?
        invariant forall k :: 0 <= k < i ==> parts[k].Value() == SplitParts(part.Value(), chunks)[k]
      {
        var p := new Part(PartValue(chunks[i], None, part.nesting, part.faq, part.faqId, true, part.lines, part.pages,
                                    part.titles), None);
        parts := parts + [p];
      }
      assert Values(parts) == SplitParts(part.Value(), chunks);
    }

    // ----- Packing -----

    /** Packs the parts of one group that does not fit into the part before it. */
    method FillParts(parts: seq<Part>, titles: seq<string>, ghost index: nat, ghost start: Lists, ghost base: seq<Run>)
      returns (runs: seq<Part>)
      requires ListsAfter(start, base)
      requires forall p <- parts :: p.Cached(cfg.tokenizer)
      modifies parts`tokens, this`pageLists
      ensures var f := FillAll(cfg, Tag(Values(parts), index), titles);
              ListsAfter(start, base + Sealed(f.done, f.open))
      ensures forall p <- parts :: p.Cached(cfg.tokenizer)
      ensures var f := FillAll(cfg, Tag(Values(parts), index), titles);
              Rendered(cfg.tokenizer, runs, Sealed(f.done, f.open))
      ensures forall r <- runs :: fresh(r)
    {
      hide FillAll, Tag, Values, Rendered, Sealed, ListsAfter;
      ghost var pieces := Tag(Values(parts), index);
      ghost var f := Filling([], None, 0, false);
      FillNothing(cfg, pieces, titles);
      SealNothing(base);
      runs := [];
      var lastPart: Part? := null;
      var tokensSum, prevPartSplitted := 0, false;
      for i := 0 to |parts|
        invariant forall p <- parts :: p.Cached(cfg.tokenizer)
        invariant f == FillAll(cfg, pieces[..i], titles)
        invariant ListsAfter(start, base + Sealed(f.done, f.open))
        invariant OpenPart(cfg.tokenizer, runs, lastPart, f.done, f.open)
        invariant tokensSum == f.sum && prevPartSplitted == f.prevSplitted
        invariant (forall r <- runs :: fresh(r)) && (lastPart != null ==> fresh(lastPart))
      {
        FillNext(cfg, pieces, titles, i);
        assert parts[i] !in runs && parts[i] != lastPart;
        ghost var before, open := runs, lastPart;
        runs, lastPart, tokensSum := FillOne(parts[i], runs, lastPart, tokensSum, prevPartSplitted, titles, pieces[i], f,
                                             start, base);
        assert forall r <- runs :: r in before || r == open;
        prevPartSplitted := parts[i].splitted;
        f := Fill(cfg, f, pieces[i], titles);
      }
      assert pieces[..|parts|] == pieces;
      SealPart(cfg.tokenizer, runs, lastPart, f.done, f.open);
      if lastPart != null {
        runs := runs + [lastPart];
      }
    }

    /** One part: it joins the open part, or that is sealed first. */
    method FillOne(part: Part, runs: seq<Part>, last: Part?, sum: nat, prevSplitted: bool, titles: seq<string>,
                   ghost piece: Piece, ghost f: Filling, ghost start: Lists, ghost base: seq<Run>)
      returns (newRuns: seq<Part>, newLast: Part, newSum: nat)
      requires ListsAfter(start, base + Sealed(f.done, f.open))
      requires OpenPart(cfg.tokenizer, runs, last, f.done, f.open) && sum == f.sum && prevSplitted == f.prevSplitted
      requires part !in runs && part != last && part.Value() == piece.part && part.Cached(cfg.tokenizer)
      modifies part`tokens, this`pageLists
      modifies if last == null then {} else {last}
      ensures var g := Fill(cfg, f, piece, titles); ListsAfter(start, base + Sealed(g.done, g.open))
      ensures var g := Fill(cfg, f, piece, titles);
              OpenPart(cfg.tokenizer, newRuns, newLast, g.done, g.open) && newSum == g.sum
      ensures part.Cached(cfg.tokenizer)
      ensures forall r <- newRuns :: r in runs || r == last
      ensures newLast == last || fresh(newLast)
    {
      hide Rendered, Sealed, Render, Append, ListsAfter;
      var tokens := CountPart(part);
      ghost var seal := sum + tokens > cfg.size || (prevSplitted && !part.splitted);
      var open: Part?;
      newRuns, open, newSum := SealIfFull(runs, last, sum, tokens, prevSplitted, part.splitted, f);
      SealedNothing(f.done, f.open);
      newLast := ExtendPart(part, newRuns, open, titles, if seal then Sealed(f.done, f.open) else f.done,
                            if seal then None else f.open, piece, start, base);
      newSum := newSum + tokens;
    }

    /** Seals the open part when the next one must not join it. */
    method SealIfFull(runs: seq<Part>, last: Part?, sum: nat, tokens: nat, prevSplitted: bool, splitted: bool,
                      ghost f: Filling)
      returns (newRuns: seq<Part>, newLast: Part?, newSum: nat)
      requires OpenPart(cfg.tokenizer, runs, last, f.done, f.open)
      ensures var seal := sum + tokens > cfg.size || (prevSplitted && !splitted);
              && OpenPart(cfg.tokenizer, newRuns, newLast, if seal then Sealed(f.done, f.open) else f.done,
                          if seal then None else f.open)
              && newSum == if seal && f.open.Some? then 0 else sum
      ensures forall r <- newRuns :: r in runs || r == last
      ensures newLast == last || newLast == null
    {
      hide Rendered;
      newRuns, newLast, newSum := runs, last, sum;
      if sum + tokens > cfg.size || (prevSplitted && !splitted) {
        SealPart(cfg.tokenizer, runs, last, f.done, f.open);
        if last != null {
          newRuns, newLast, newSum := runs + [last], null, 0;
        }
      }
    }

    /** AppendPartToPart with the sealed parts beside it. */
    method ExtendPart(part: Part, ghost runs: seq<Part>, dest: Part?, titles: seq<string>, ghost done: seq<Run>,
                      ghost open: Option<Run>, ghost piece: Piece, ghost start: Lists, ghost base: seq<Run>)
      returns (r: Part)
      requires ListsAfter(start, base + Sealed(done, open))
      requires OpenPart(cfg.tokenizer, runs, dest, done, open)
      requires part.Value() == piece.part && part.Cached(cfg.tokenizer)
      modifies if dest == null then {} else {dest}
      modifies this`pageLists
      ensures ListsAfter(start, base + Sealed(done, Some(Append(open, piece, titles))))
      ensures OpenPart(cfg.tokenizer, runs, r, done, Some(Append(open, piece, titles)))
      ensures if dest == null then fresh(r) else r == dest
    {
      hide Render, Append, FoldRuns, Sealed;
      FoldAppend(start, base, done, open, piece, titles);
      r := AppendPartToPart(part, dest, titles, open, piece);
    }

    /** Leaves the headings the group closes, then enters its own. */
    method EnterGroup(stack: TitleStack, group: Group, ghost v: GroupValue) returns (r: TitleStack)
      requires v.level == group.level && v.title == group.title
      ensures r == Enter(stack, v)
    {
      r := stack;
      while |r| > 0 && r[|r| - 1].1 >= group.level
        invariant Pop(r, group.level) == Pop(stack, group.level)
      {
        r := r[..|r| - 1];
      }
      if group.level > 0 {
        r := r + [(group.title, group.level)];
      }
    }

    method CanMergeGroup(universe: set<Part>, group: Group, lastPart: Part?, highest: Option<int>, ghost v: GroupValue,
                         ghost st: Packing)
      returns (canMerge: bool)
      requires AllCached(cfg.tokenizer, universe) && GroupShows(universe, group, v) && GroupCached(cfg, group)
      requires OpenRunNonEmpty(st) && highest == st.top
      requires lastPart != null <==> st.open.Some?
      requires lastPart != null ==>
                 lastPart !in universe && lastPart.Value() == Render(st.open.value) && lastPart.Cached(cfg.tokenizer)
      modifies group`tokens, universe`tokens
      modifies if lastPart == null then {} else {lastPart}`tokens
      ensures canMerge <==> CanMerge(cfg, st, v)
      ensures AllCached(cfg.tokenizer, universe) && GroupCached(cfg, group)
      ensures lastPart != null ==> lastPart.Cached(cfg.tokenizer)
    {
      hide RunText, RunLines, SumTokens, Values;
      var groupTokens := CountGroup(universe, group);
      canMerge := true;
      if highest.Some? && highest.value > group.level {
        canMerge := false;
      }
      if lastPart != null
         && (lastPart.faq || exists k | 0 <= k < |group.items| :: group.items[k].faq) {
        canMerge := false;
      }
      assert HasFaq(v.items) <==> exists k | 0 <= k < |group.items| :: group.items[k].faq by {
        assert forall k :: 0 <= k < |group.items| ==> v.items[k].faq == group.items[k].faq;
      }
      var lastPartTokens := 0;
      if lastPart != null {
        lastPartTokens := CountPart(lastPart);
      }
      if lastPartTokens + groupTokens > cfg.size {
        canMerge := false;
      }
    }

    lemma NothingMergedYet()
      ensures ListsAfter(pageLists, Sealed([], None))
    {
    }

    method RechunkGroups(universe: set<Part>, groups: seq<Group>, ghost vs: seq<GroupValue>) returns (result: seq<Part>)
      requires Shows(universe, groups, vs) && GroupsHaveContent(vs)
      requires AllCached(cfg.tokenizer, universe) && forall g <- groups :: GroupCached(cfg, g)
      modifies groups`tokens, universe`tokens, this`pageLists
      ensures ListsAfter(old(pageLists), PackedRuns(cfg, vs))
      ensures Rendered(cfg.tokenizer, result, PackedRuns(cfg, vs))
      ensures AllCached(cfg.tokenizer, universe)
      ensures forall r <- result :: fresh(r)
    {
      hide Pack, PackAll, Rendered, Values, Shows, Enter, SumTokens, ListsAfter, OpenPart, GroupCached, Sealed;
      hide AllCached, GroupShows;
      var titleStack: TitleStack := [];
      result := [];
      var lastPart: Part? := null;
      var highest: Option<int> := None;
      ghost var st := PackAll(cfg, vs[..0]);
      PackNone(cfg, vs);
      ghost var start := pageLists;
      NothingMergedYet();
      ShowsLengths(universe, groups, vs);
      for i := 0 to |groups|
        invariant st == PackAll(cfg, vs[..i]) && OpenRunNonEmpty(st)
        invariant ListsAfter(start, Sealed(st.done, st.open))
        invariant st.stack == titleStack && st.top == highest && (st.open.None? ==> st.top.None?)
        invariant OpenPart(cfg.tokenizer, result, lastPart, st.done, st.open)
        invariant (forall r <- result :: fresh(r)) && (lastPart != null ==> fresh(lastPart))
        invariant Shows(universe, groups, vs)
        invariant AllCached(cfg.tokenizer, universe) && forall g <- groups :: GroupCached(cfg, g)
      {
        ShowsAt(universe, groups, vs, i);
        PackNext(cfg, vs, i);
        titleStack := EnterGroup(titleStack, groups[i], vs[i]);
        result, lastPart, highest := PackGroup(universe, groups[i], vs[i], i, Titles(titleStack), result, lastPart,
                                               highest, st, start);
        st := Pack(cfg, st, vs[i], i);
      }
      assert vs[..|groups|] == vs;
      SealPart(cfg.tokenizer, result, lastPart, st.done, st.open);
      if lastPart != null {
        result := result + [lastPart];
      }
    }

    /** Merges one group into the last part, or seals that and packs the group alone. */
    method PackGroup(universe: set<Part>, group: Group, ghost v: GroupValue, ghost index: nat, titles: seq<string>,
                     sealed: seq<Part>, last: Part?, highest: Option<int>, ghost st: Packing, ghost start: Lists)
      returns (result: seq<Part>, lastPart: Part?, newHighest: Option<int>)
      requires AllCached(cfg.tokenizer, universe) && GroupShows(universe, group, v) && GroupCached(cfg, group)
      requires v.items != [] && AllContent(v.items)
      requires OpenRunNonEmpty(st) && highest == st.top && (st.open.None? ==> st.top.None?)
      requires OpenPart(cfg.tokenizer, sealed, last, st.done, st.open)
      requires ListsAfter(start, Sealed(st.done, st.open))
      requires titles == Titles(Enter(st.stack, v))
      requires (forall r <- sealed :: r !in universe) && (last != null ==> last !in universe)
      modifies group`tokens, universe`tokens, this`pageLists
      modifies if last == null then {} else {last}
      ensures var r := Pack(cfg, st, v, index); ListsAfter(start, Sealed(r.done, r.open))
      ensures AllCached(cfg.tokenizer, universe) && GroupCached(cfg, group)
      ensures var r := Pack(cfg, st, v, index);
              && OpenPart(cfg.tokenizer, result, lastPart, r.done, r.open)
              && newHighest == r.top && (r.open.None? ==> r.top.None?)
      ensures forall r <- result :: r in sealed || r == last || fresh(r)
      ensures lastPart != null ==> lastPart == last || fresh(lastPart)
    {
      hide Pack, FillAll, AppendAll, ExpandAll, Values, Render, Tag, SumTokens, Enter, CanMerge, Rendered, Sealed;
      hide ListsAfter, Titles, AllContent, GroupCached;
      result, lastPart, newHighest := sealed, last, highest;
      var canMerge := CanMergeGroup(universe, group, last, highest, v, st);
      if canMerge {
        lastPart, newHighest := PackTogether(universe, group, v, index, titles, sealed, last, highest, st, start);
        return;
      }
      PackFills(cfg, st, v, index);
      SealPart(cfg.tokenizer, result, last, st.done, st.open);
      if last != null {
        result := result + [last];
      }
      lastPart, newHighest := null, None;
      result := PackAlone(universe, group, v, index, titles, result, Sealed(st.done, st.open), start);
      SealNothing(Pack(cfg, st, v, index).done);
    }

    /** A group that joins the last part, or starts one if there is none. */
    method PackTogether(universe: set<Part>, group: Group, ghost v: GroupValue, ghost index: nat, titles: seq<string>,
                        ghost sealed: seq<Part>, last: Part?, highest: Option<int>, ghost st: Packing,
                        ghost start: Lists)
      returns (lastPart: Part?, newHighest: Option<int>)
      requires AllCached(cfg.tokenizer, universe) && GroupShows(universe, group, v) && GroupCached(cfg, group)
      requires v.items != [] && OpenRunNonEmpty(st) && highest == st.top && CanMerge(cfg, st, v)
      requires OpenPart(cfg.tokenizer, sealed, last, st.done, st.open)
      requires ListsAfter(start, Sealed(st.done, st.open))
      requires titles == Titles(Enter(st.stack, v))
      requires (forall r <- sealed :: r !in universe) && (last != null ==> last !in universe)
      modifies this`pageLists
      modifies if last == null then {} else {last}
      ensures var r := Pack(cfg, st, v, index);
              && ListsAfter(start, Sealed(r.done, r.open))
              && OpenPart(cfg.tokenizer, sealed, lastPart, r.done, r.open)
              && newHighest == r.top && (r.open.None? ==> r.top.None?)
      ensures AllCached(cfg.tokenizer, universe) && GroupCached(cfg, group)
      ensures lastPart != null ==> lastPart == last || fresh(lastPart)
    {
      hide Pack, AppendAll, Values, Render, Tag, SumTokens, Enter, CanMerge, Rendered, Sealed, ListsAfter, Titles;
      newHighest := highest;
      PackMerges(cfg, st, v, index);
      TagShows(group.items, v.items, index);
      lastPart := AppendGroupToPart(group.items, last, titles, st.open, Tag(v.items, index), start, st.done);
      if highest.None? {
        newHighest := Some(group.level);
      }
    }

    /** Packs a group into parts of its own, large parts split. */
    method PackAlone(universe: set<Part>, group: Group, ghost v: GroupValue, ghost index: nat, titles: seq<string>,
                     sealed: seq<Part>, ghost done: seq<Run>, ghost start: Lists)
      returns (result: seq<Part>)
      requires ListsAfter(start, done)
      requires AllCached(cfg.tokenizer, universe) && GroupShows(universe, group, v)
      requires Rendered(cfg.tokenizer, sealed, done) && forall r <- sealed :: r !in universe
      modifies universe`tokens, this`pageLists
      ensures AllCached(cfg.tokenizer, universe)
      ensures var f := FillAll(cfg, Tag(ExpandAll(cfg, v.items), index), titles);
              ListsAfter(start, done + Sealed(f.done, f.open))
      ensures var f := FillAll(cfg, Tag(ExpandAll(cfg, v.items), index), titles);
              Rendered(cfg.tokenizer, result, done + Sealed(f.done, f.open))
      ensures forall r <- result :: r in sealed || fresh(r)
    {
      hide FillAll, ExpandAll, Values, Render, Tag, Rendered, Sealed, ListsAfter;
      var parts := SplitLargeParts(universe, group.items);
      assert forall r <- sealed :: r !in parts;
      var runs := FillParts(parts, titles, index, start, done);
      ghost var f := FillAll(cfg, Tag(ExpandAll(cfg, v.items), index), titles);
      RenderedAppend(cfg.tokenizer, sealed, runs, done, Sealed(f.done, f.open));
      result := sealed + runs;
    }

    // ----- The whole pipeline -----

    /** Output parts show the runs that the pipeline makes of the input parts, which
        keep their values; only token caches are written. */
    method Rechunk(parts: seq<Part>) returns (result: seq<Part>)
      requires forall p <- parts :: p.Cached(cfg.tokenizer)
      modifies parts`tokens, this`pageLists
      ensures Rendered(cfg.tokenizer, result, Chunking.Rechunk(cfg, Values(parts)))
      ensures pageLists == FoldRuns(old(pageLists), Chunking.Rechunk(cfg, Values(parts)))
      ensures forall r <- result :: fresh(r)
      ensures Values(parts) == old(Values(parts)) && forall p <- parts :: p.Cached(cfg.tokenizer)
    {
      hide Values, Shows, GroupParts, MergeTitles, PackedRuns, Rendered, FoldRuns;
      var universe := set p <- parts;
      var groups := ToGroups(parts);
      ghost var vs := GroupParts(Values(parts)).groups;
      GroupPartsHaveContent(Values(parts));
      MergeTitlesHasContent(vs, 0);
      ghost var before := groups;
      groups := MergeConsecutiveTitleGroups(universe, groups, vs);
      forall i | 0 <= i < |groups|
        ensures fresh(groups[i]) && GroupCached(cfg, groups[i])
      {
        assert groups[i] in groups;
        assert groups[i] in before ==> fresh(groups[i]) && groups[i].tokens.None?;
      }
      result := RechunkGroups(universe, groups, MergeTitles(vs, 0));
    }
  }

  /** The parts show the runs and count their tokens. */
  ghost predicate Rendered(tok: Tokenizer, parts: seq<Part>, runs: seq<Run>)
    reads parts`content, parts`lines, parts`pages, parts`tokens
  {
    && |parts| == |runs|
    && forall k :: 0 <= k < |runs| ==>
         runs[k].pieces != [] && parts[k].Value() == Render(runs[k]) && parts[k].Cached(tok)
  }

  /** The sealed parts, and the one that still grows. */
  ghost predicate OpenPart(tok: Tokenizer, parts: seq<Part>, last: Part?, done: seq<Run>, open: Option<Run>)
    reads parts`content, parts`lines, parts`pages, parts`tokens
    reads if last == null then {} else {last}
  {
    && Rendered(tok, parts, done)
    && (last != null <==> open.Some?)
    && (last != null ==>
          last !in parts && open.value.pieces != [] && last.Value() == Render(open.value) && last.Cached(tok))
  }

  /** The groups built so far and the one that still takes parts. */
  ghost predicate Tracks(universe: set<Part>, result: seq<Group>, curr: Group?, g: Grouping)
    reads result`items, result`tokens, universe`content, universe`lines, universe`pages
  {
    && Shows(universe, result, g.groups)
    && (forall x <- result :: x.tokens.None?)
    && (curr != null <==> g.open)
    && (curr != null ==>
          && result != [] && curr == Last(result)
          && forall k :: 0 <= k < |result| - 1 ==> result[k] != curr)
  }

  lemma SealPart(tok: Tokenizer, parts: seq<Part>, last: Part?, done: seq<Run>, open: Option<Run>)
    requires OpenPart(tok, parts, last, done, open)
    ensures Rendered(tok, if last == null then parts else parts + [last], Sealed(done, open))
  {
    hide Render;
  }

  lemma SealedNothing(done: seq<Run>, open: Option<Run>)
    ensures Sealed(Sealed(done, open), None) == Sealed(done, open)
  {
  }

  lemma SealNothing(base: seq<Run>)
    ensures base + Sealed([], None) == base && Sealed(base, None) == base
  {
  }

  lemma {:induction false} FoldRunsSnoc(start: Lists, runs: seq<Run>, run: Run)
    ensures FoldRuns(start, runs + [run]) == FoldPieces(FoldRuns(start, runs), run.pieces)
  {
    hide FoldPieces;
    assert (runs + [run])[..|runs|] == runs;
  }

  lemma {:induction false} FoldPiecesSnoc(start: Lists, pieces: seq<Piece>, piece: Piece)
    ensures FoldPieces(start, pieces + [piece]) == Merged(FoldPieces(start, pieces), RunPages(pieces), piece.part.pages)
    ensures FoldPieces(start, []) == start
  {
    hide Merged, RunPages;
    assert (pieces + [piece])[..|pieces|] == pieces;
  }

  /** Appending a piece to the open run merges its page list into that of the run. */
  lemma {:induction false} FoldAppend(start: Lists, base: seq<Run>, done: seq<Run>, open: Option<Run>, piece: Piece, titles: seq<string>)
    ensures FoldRuns(start, base + Sealed(done, Some(Append(open, piece, titles))))
         == Merged(FoldRuns(start, base + Sealed(done, open)), OpenPages(open), piece.part.pages)
  {
    hide FoldRuns, FoldPieces, Merged, RunPages;
    var run, before := Append(open, piece, titles), if open.None? then [] else open.value.pieces;
    assert base + Sealed(done, Some(run)) == (base + done) + [run];
    FoldRunsSnoc(start, base + done, run);
    FoldPiecesSnoc(FoldRuns(start, base + done), before, piece);
    NoPages();
    assert [] + [piece] == [piece];
    if open.Some? {
      assert base + Sealed(done, open) == (base + done) + [open.value];
      FoldRunsSnoc(start, base + done, open.value);
    }
  }

  lemma {:induction false} FoldAppendFirst(start: Lists, done: seq<Run>, open: Option<Run>, piece: Piece, titles: seq<string>)
    ensures FoldRuns(start, Sealed(done, Some(Append(open, piece, titles))))
         == Merged(FoldRuns(start, Sealed(done, open)), OpenPages(open), piece.part.pages)
  {
    hide FoldRuns, OpenPages, Merged, Sealed, Append;
    FoldAppend(start, [], done, open, piece, titles);
    assert forall o: Option<Run> :: [] + Sealed(done, o) == Sealed(done, o);
  }

  lemma NoPages()
    ensures RunPages([]) == None
  {
  }

  lemma RenderedAppend(tok: Tokenizer, a: seq<Part>, b: seq<Part>, ra: seq<Run>, rb: seq<Run>)
    requires Rendered(tok, a, ra) && Rendered(tok, b, rb)
    ensures Rendered(tok, a + b, ra + rb)
  {
    hide Render;
  }

  lemma {:induction false} TagShows(items: seq<Part>, vs: seq<PartValue>, index: nat)
    requires vs == Values(items)
    ensures var pieces := Tag(vs, index);
            |pieces| == |items| && forall i :: 0 <= i < |items| ==> items[i].Value() == pieces[i].part
  {
    hide Values, Tag;
  }

  lemma {:induction false} PackNone(cfg: Config, vs: seq<GroupValue>)
    ensures PackAll(cfg, vs[..0]) == Packing([], [], None, None)
    ensures OpenPart(cfg.tokenizer, [], null, [], None)
  {
  }

  lemma {:induction false} PackNext(cfg: Config, vs: seq<GroupValue>, i: nat)
    requires i < |vs|
    ensures PackAll(cfg, vs[..i + 1]) == Pack(cfg, PackAll(cfg, vs[..i]), vs[i], i)
    ensures Pack(cfg, PackAll(cfg, vs[..i]), vs[i], i).stack == Enter(PackAll(cfg, vs[..i]).stack, vs[i])
  {
    hide Enter, CanMerge, FillAll, AppendAll, ExpandAll, Tag;
    assert vs[..i + 1][..i] == vs[..i];
  }

  lemma PackMerges(cfg: Config, st: Packing, v: GroupValue, index: nat)
    requires OpenRunNonEmpty(st) && CanMerge(cfg, st, v) && v.items != []
    ensures var r, titles := Pack(cfg, st, v, index), Titles(Enter(st.stack, v));
            && r.done == st.done && r.open == AppendAll(st.open, Tag(v.items, index), titles) && r.open.Some?
            && r.top == if st.top.None? then Some(v.level) else st.top
  {
    hide Enter, CanMerge, FillAll, ExpandAll;
  }

  lemma {:induction false} PackFills(cfg: Config, st: Packing, v: GroupValue, index: nat)
    requires OpenRunNonEmpty(st) && !CanMerge(cfg, st, v)
    ensures var r := Pack(cfg, st, v, index);
            var f := FillAll(cfg, Tag(ExpandAll(cfg, v.items), index), Titles(Enter(st.stack, v)));
            && r.done == Sealed(st.done, st.open) + Sealed(f.done, f.open)
            && r.open.None? && r.top.None?
  {
    hide Enter, CanMerge, FillAll, AppendAll, ExpandAll, Tag;
  }

  lemma {:induction false} FillNothing(cfg: Config, pieces: seq<Piece>, titles: seq<string>)
    ensures FillAll(cfg, pieces[..0], titles) == Filling([], None, 0, false)
    ensures Rendered(cfg.tokenizer, [], [])
  {
  }

  lemma {:induction false} FillNext(cfg: Config, pieces: seq<Piece>, titles: seq<string>, i: nat)
    requires i < |pieces|
    ensures FillAll(cfg, pieces[..i + 1], titles) == Fill(cfg, FillAll(cfg, pieces[..i], titles), pieces[i], titles)
  {
    hide Fill;
    assert pieces[..i + 1][..i] == pieces[..i];
  }

  lemma ShowsNothing(universe: set<Part>)
    ensures Shows(universe, [], [])
  {
  }

  lemma ShowsLengths(universe: set<Part>, groups: seq<Group>, vs: seq<GroupValue>)
    requires Shows(universe, groups, vs)
    ensures |groups| == |vs|
  {
  }

  lemma ShowsOne(universe: set<Part>, groups: seq<Group>, vs: seq<GroupValue>, g: Group, v: GroupValue)
    requires Shows(universe, groups, vs) && GroupShows(universe, g, v)
    ensures Shows(universe, groups + [g], vs + [v])
  {
    hide GroupShows;
  }

  lemma ShowsAt(universe: set<Part>, groups: seq<Group>, vs: seq<GroupValue>, i: nat)
    requires Shows(universe, groups, vs) && i < |groups|
    ensures GroupShows(universe, groups[i], vs[i])
    ensures PureTitle(vs[i]) <==> groups[i].level > 0 && |groups[i].items| == 1
    ensures vs[i] == GroupValue(groups[i].level, groups[i].title, Values(groups[i].items))
    ensures forall p <- groups[i].items :: p in universe
  {
    hide Values;
    assert GroupShows(universe, groups[i], vs[i]);
  }

  lemma {:induction false} ValuesAppend(a: seq<Part>, b: seq<Part>)
    ensures Values(a + b) == Values(a) + Values(b)
  {
    hide Values;
  }

  lemma {:induction false} MergeTitlesNothing(vs: seq<GroupValue>)
    ensures MergeTitles(vs, |vs|) == []
  {
  }

  lemma OneItem(vs: seq<GroupValue>, i: nat)
    requires i < |vs|
    ensures Items(vs[i..i + 1]) == vs[i].items
  {
    assert vs[i..i + 1] == [] + [vs[i]];
    ItemsSnoc([], vs[i]);
  }

  lemma ItemsNext(vs: seq<GroupValue>, i: nat, j: nat)
    requires i <= j < |vs|
    ensures Items(vs[i..j + 1]) == Items(vs[i..j]) + vs[j].items
  {
    assert vs[i..j + 1] == vs[i..j] + [vs[j]];
    ItemsSnoc(vs[i..j], vs[j]);
  }

  lemma TitleRunUnfolds(vs: seq<GroupValue>, j: nat, top: int)
    requires j <= |vs|
    ensures TitleRun(vs, j, top) ==
            if j < |vs| && PureTitle(vs[j]) && vs[j].level >= top then TitleRun(vs, j + 1, top) else j
  {
  }

  /** Appending a piece to a rendered run extends its text and its interval. */
  lemma RenderAppend(open: Option<Run>, piece: Piece, titles: seq<string>)
    requires open.Some? ==> open.value.pieces != []
    ensures open.None? ==>
              Render(Append(open, piece, titles))
              == piece.part.(level := None, titles := if titles == [] then piece.part.titles else Some(titles))
    ensures open.Some? ==>
              Render(Append(open, piece, titles))
              == Render(open.value).(content := Render(open.value).content + "\n\n" + piece.part.content,
                                     lines := MergeLines(Render(open.value).lines, piece.part.lines),
                                     pages := Taken(Render(open.value).pages, piece.part.pages))
    ensures open.Some? ==> Render(open.value).pages == OpenPages(open)
  {
    if open.None? {
      assert RunLines([piece][..0]) == None && RunPages([piece][..0]) == None;
    } else {
      var pieces := open.value.pieces;
      assert (pieces + [piece])[..|pieces|] == pieces;
    }
  }

  lemma {:induction false} AppendNothingYet(open: Option<Run>, pieces: seq<Piece>, titles: seq<string>)
    ensures AppendAll(open, pieces[..0], titles) == open
  {
  }

  lemma {:induction false} AppendNext(open: Option<Run>, pieces: seq<Piece>, titles: seq<string>, i: nat)
    requires i < |pieces|
    ensures AppendAll(open, pieces[..i + 1], titles)
         == Some(Append(AppendAll(open, pieces[..i], titles), pieces[i], titles))
  {
    assert pieces[..i + 1][..i] == pieces[..i];
  }

  lemma {:induction false} ExpandNone(cfg: Config, vs: seq<PartValue>)
    ensures Values([]) == ExpandAll(cfg, vs[..0])
  {
  }

  lemma {:induction false} ExpandNext(cfg: Config, vs: seq<PartValue>, i: nat)
    requires i < |vs|
    ensures ExpandAll(cfg, vs[..i + 1]) == ExpandAll(cfg, vs[..i]) + Expand(cfg, vs[i])
  {
    hide Expand;
    assert vs[..i + 1][..i] == vs[..i];
  }

  lemma OneValue(p: Part)
    ensures Values([p]) == [p.Value()]
  {
    assert [p][..0] == [];
  }

  lemma {:induction false} ValuesSnoc(parts: seq<Part>, p: Part)
    ensures Values(parts + [p]) == Values(parts) + [p.Value()]
  {
    assert (parts + [p])[..|parts|] == parts;
  }

  lemma OneGroup(universe: set<Part>, g: Group, p: Part)
    requires g.items == [p] && p in universe
    ensures GroupShows(universe, g, GroupValue(g.level, g.title, [p.Value()]))
  {
    OneValue(p);
  }

  lemma {:induction false} SumTokensNothing(cfg: Config, vs: seq<PartValue>)
    ensures SumTokens(cfg, vs[..0]) == 0
  {
  }

  lemma {:induction false} SumTokensNext(cfg: Config, vs: seq<PartValue>, i: nat)
    requires i < |vs|
    ensures SumTokens(cfg, vs[..i + 1]) == SumTokens(cfg, vs[..i]) + Tokens(cfg, vs[i])
  {
    assert vs[..i + 1][..i] == vs[..i];
  }

  lemma TracksNothing(universe: set<Part>)
    ensures Tracks(universe, [], null, Grouping([], false)) && GroupParts([]) == Grouping([], false)
  {
  }

  lemma TracksShows(universe: set<Part>, result: seq<Group>, curr: Group?, g: Grouping)
    requires Tracks(universe, result, curr, g)
    ensures Shows(universe, result, g.groups) && forall x <- result :: x.tokens.None?
  {
  }

  lemma GroupPartsNext(vs: seq<PartValue>, i: nat)
    requires i < |vs|
    ensures GroupParts(vs[..i + 1]) == AddPart(GroupParts(vs[..i]), vs[i])
    ensures vs[i].content == "" ==> GroupParts(vs[..i + 1]) == GroupParts(vs[..i])
  {
    assert vs[..i + 1][..i] == vs[..i];
  }
}
