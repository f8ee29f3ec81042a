/** Why output parts end where they do: packing takes in as much as it may, so every boundary
    between two output parts has its reason. */
module MaximalLaws {
  import opened Common
  import opened Chunking
  import opened GroupingLaws
  import opened PackingLaws

  // ----- Inside a group that is packed alone -----

  /** The next piece would go over the limit, or follows chunks without being one. */
  predicate MustSeal(cfg: Config, pieces: seq<Piece>, next: Piece)
    requires pieces != []
  {
    || SumTokens(cfg, PartsOf(pieces)) + Tokens(cfg, next.part) > cfg.size
    || (Last(pieces).part.splitted && !next.part.splitted)
  }

  /** Each piece but the first did not have to start a new output part. */
  ghost predicate WellFilled(cfg: Config, pieces: seq<Piece>) {
    pieces != [] && forall i :: 0 < i < |pieces| ==> !MustSeal(cfg, pieces[..i], pieces[i])
  }

  /** The first run ends because the second one's first piece had to start a new one. */
  ghost predicate EndsBefore(cfg: Config, a: Run, b: Run) {
    a.pieces != [] && b.pieces != [] && MustSeal(cfg, a.pieces, b.pieces[0])
  }

  /** Runs from one group alone: each is well filled, and ends where it has to. */
  ghost predicate FilledTight(cfg: Config, runs: seq<Run>) {
    && (forall k :: 0 <= k < |runs| ==> WellFilled(cfg, runs[k].pieces))
    && (forall k :: 0 < k < |runs| ==> EndsBefore(cfg, runs[k - 1], runs[k]))
  }

  lemma WellFilledSnoc(cfg: Config, pieces: seq<Piece>, next: Piece)
    requires WellFilled(cfg, pieces) && !MustSeal(cfg, pieces, next)
    ensures WellFilled(cfg, pieces + [next])
  {
    hide MustSeal;
    var all := pieces + [next];
    forall i | 0 < i < |all|
      ensures !MustSeal(cfg, all[..i], all[i])
    {
      assert all[..i] == if i < |pieces| then pieces[..i] else pieces;
    }
  }

  lemma OneWellFilled(cfg: Config, piece: Piece)
    ensures WellFilled(cfg, [piece])
  {
  }

  lemma FilledTightSnoc(cfg: Config, runs: seq<Run>, run: Run)
    requires FilledTight(cfg, runs) && WellFilled(cfg, run.pieces)
    requires runs != [] ==> EndsBefore(cfg, Last(runs), run)
    ensures FilledTight(cfg, runs + [run])
  {
    hide EndsBefore, WellFilled;
  }

  ghost predicate FillingTight(cfg: Config, f: Filling) {
    && FilledTight(cfg, Sealed(f.done, f.open))
    && (f.open.None? ==> f.done == [] && f.sum == 0 && !f.prevSplitted)
    && (f.open.Some? ==>
          && f.open.value.pieces != [] && f.sum == SumTokens(cfg, PartsOf(f.open.value.pieces))
          && f.prevSplitted == Last(f.open.value.pieces).part.splitted)
  }

  lemma FillStepTight(cfg: Config, f: Filling, piece: Piece, titles: seq<string>)
    requires FillingTight(cfg, f)
    ensures FillingTight(cfg, Fill(cfg, f, piece, titles))
  {
    hide FilledTight, WellFilled, SumTokens, PartsOf;
    SingleText(cfg, piece);
    OneWellFilled(cfg, piece);
    var before := Sealed(f.done, f.open);
    var r := Fill(cfg, f, piece, titles);
    if f.open.None? {
      FilledTightSnoc(cfg, [], Run([piece], titles));
      assert [] + [Run([piece], titles)] == [Run([piece], titles)];
    } else {
      var open := f.open.value.pieces;
      SumTokensSnoc(cfg, open, piece);
      TightParts(cfg, f.done, f.open.value);
      if MustSeal(cfg, open, piece) {
        FilledTightSnoc(cfg, before, Run([piece], titles));
      } else {
        var longer := f.open.value.(pieces := open + [piece]);
        WellFilledSnoc(cfg, open, piece);
        WellFilledStart(cfg, open);
        FilledTightSnoc(cfg, f.done, longer);
      }
    }
  }

  lemma WellFilledStart(cfg: Config, pieces: seq<Piece>)
    requires WellFilled(cfg, pieces)
    ensures pieces != []
  {
  }

  lemma TightParts(cfg: Config, done: seq<Run>, last: Run)
    requires FilledTight(cfg, done + [last])
    ensures FilledTight(cfg, done) && WellFilled(cfg, last.pieces)
    ensures done != [] ==> EndsBefore(cfg, Last(done), last)
  {
    hide EndsBefore, WellFilled;
    var runs := done + [last];
    assert forall k :: 0 <= k < |done| ==> runs[k] == done[k];
    assert runs[|done|] == last;
  }

  lemma {:induction false} FillAllTight(cfg: Config, pieces: seq<Piece>, titles: seq<string>)
    ensures FillingTight(cfg, FillAll(cfg, pieces, titles))
    ensures pieces != [] ==> FillAll(cfg, pieces, titles).open.Some?
  {
    if pieces != [] {
      hide FillingTight, Fill;
      FillAllTight(cfg, pieces[..|pieces| - 1], titles);
      FillStepTight(cfg, FillAll(cfg, pieces[..|pieces| - 1], titles), Last(pieces), titles);
      FillOpens(cfg, FillAll(cfg, pieces[..|pieces| - 1], titles), Last(pieces), titles);
    }
  }

  lemma FillOpens(cfg: Config, f: Filling, piece: Piece, titles: seq<string>)
    ensures Fill(cfg, f, piece, titles).open.Some?
  {
  }

  // ----- Blocks of groups -----

  /** Groups lo up to hi make up the output parts from up to to: alone, if it is one group
      packed into output parts of its own, and otherwise all in one. */
  datatype Block = Block(lo: nat, hi: nat, from: nat, to: nat, alone: bool)

  /** The whole parts of groups lo up to hi, in order. */
  function Tagged(groups: seq<GroupValue>, lo: nat, hi: nat): seq<Piece>
    requires lo <= hi <= |groups|
  {
    if lo == hi then [] else Tagged(groups, lo, hi - 1) + Tag(groups[hi - 1].items, hi - 1)
  }

  /** Group j may join an output part that holds the groups from lo on: it is not above the
      first of them, no FAQ entry is on either side, and the tokens fit. */
  predicate MayJoin(cfg: Config, groups: seq<GroupValue>, lo: nat, j: nat)
    requires lo < j < |groups|
  {
    && groups[lo].level <= groups[j].level
    && (groups[lo].items != [] ==> !groups[lo].items[0].faq)
    && (forall p <- groups[j].items :: !p.faq)
    && cfg.tokenizer(RunText(Tagged(groups, lo, j))) + SumTokens(cfg, groups[j].items) <= cfg.size
  }

  ghost predicate BlockTrue(cfg: Config, groups: seq<GroupValue>, runs: seq<Run>, prev: Option<Block>, b: Block) {
    && b.lo < b.hi <= |groups| && b.from < b.to <= |runs|
    && b.lo == (if prev.Some? then prev.value.hi else 0) && b.from == (if prev.Some? then prev.value.to else 0)
    && (if b.alone then
          && b.hi == b.lo + 1
          && RunsPieces(runs[b.from..b.to]) == Tag(ExpandAll(cfg, groups[b.lo].items), b.lo)
          && FilledTight(cfg, runs[b.from..b.to])
          && (if prev.Some? && !prev.value.alone && prev.value.lo < b.lo
              then !MayJoin(cfg, groups, prev.value.lo, b.lo)
              else SumTokens(cfg, groups[b.lo].items) > cfg.size)
        else
          && b.to == b.from + 1 && runs[b.from].pieces == Tagged(groups, b.lo, b.hi)
          && SumTokens(cfg, groups[b.lo].items) <= cfg.size
          && (forall j :: b.lo < j < b.hi ==> MayJoin(cfg, groups, b.lo, j))
          && (prev.Some? ==> prev.value.alone))
  }

  function Before(blocks: seq<Block>, k: nat): Option<Block>
    requires k <= |blocks|
  {
    if k == 0 then None else Some(blocks[k - 1])
  }

  /** The blocks are about the first n groups and all the runs. */
  ghost predicate Blocked(cfg: Config, groups: seq<GroupValue>, n: nat, runs: seq<Run>, blocks: seq<Block>) {
    && (forall k :: 0 <= k < |blocks| ==> BlockTrue(cfg, groups, runs, Before(blocks, k), blocks[k]))
    && (if blocks == [] then n == 0 && runs == [] else Last(blocks).hi == n && Last(blocks).to == |runs|)
  }

  /** What the open run says about the last block. */
  ghost predicate OpenBlock(groups: seq<GroupValue>, st: Packing, blocks: seq<Block>) {
    if st.open.Some? then
      && blocks != [] && !Last(blocks).alone && Last(blocks).lo < |groups|
      && st.top == Some(groups[Last(blocks).lo].level)
      && Last(blocks).from == |st.done|
    else
      && st.top.None?
      && (blocks != [] ==> Last(blocks).alone)
  }

  lemma BlockTrueMoreRuns(cfg: Config, groups: seq<GroupValue>, runs: seq<Run>, more: seq<Run>, prev: Option<Block>, b: Block)
    requires BlockTrue(cfg, groups, runs, prev, b) && runs <= more
    ensures BlockTrue(cfg, groups, more, prev, b)
  {
    hide FilledTight, MayJoin, Tagged, RunsPieces, ExpandAll, SumTokens, Tag;
    assert more[b.from..b.to] == runs[b.from..b.to];
  }

  /** One more block after the others. */
  lemma BlockedSnoc(cfg: Config, groups: seq<GroupValue>, n: nat, runs: seq<Run>, blocks: seq<Block>, more: seq<Run>, b: Block)
    requires Blocked(cfg, groups, n, runs, blocks) && runs <= more
    requires BlockTrue(cfg, groups, more, Before(blocks, |blocks|), b) && b.to == |more|
    ensures Blocked(cfg, groups, b.hi, more, blocks + [b])
  {
    hide BlockTrue;
    var all := blocks + [b];
    forall k | 0 <= k < |all|
      ensures BlockTrue(cfg, groups, more, Before(all, k), all[k])
    {
      if k < |blocks| {
        BlockTrueMoreRuns(cfg, groups, runs, more, Before(blocks, k), blocks[k]);
        assert Before(all, k) == Before(blocks, k);
      } else {
        assert Before(all, k) == Before(blocks, |blocks|);
      }
    }
  }

  lemma {:induction false} TaggedParts(groups: seq<GroupValue>, lo: nat, hi: nat)
    requires lo <= hi <= |groups| && forall k :: lo <= k < hi ==> groups[k].items != []
    ensures lo < hi ==>
              Tagged(groups, lo, hi) != [] && Tagged(groups, lo, hi)[0].part == groups[lo].items[0]
    decreases hi - lo
  {
    if lo < hi {
      TaggedParts(groups, lo, hi - 1);
    }
  }

  lemma TaggedStep(groups: seq<GroupValue>, lo: nat, n: nat)
    requires lo <= n < |groups|
    ensures Tagged(groups, lo, n + 1) == Tagged(groups, lo, n) + Tag(groups[n].items, n)
    ensures Tagged(groups, n, n) == []
  {
  }

  /** The decision on the open run is the one on the groups it holds. */
  lemma {:induction false} CanMergeMeansMayJoin(cfg: Config, groups: seq<GroupValue>, st: Packing, lo: nat, n: nat)
    requires lo < n < |groups| && OpenRunNonEmpty(st)
    requires st.open.Some? && st.open.value.pieces == Tagged(groups, lo, n) && st.top == Some(groups[lo].level)
    requires forall k :: 0 <= k < |groups| ==> groups[k].items != []
    ensures CanMerge(cfg, st, groups[n]) <==> MayJoin(cfg, groups, lo, n)
  {
    hide Tagged, RunText, SumTokens;
    TaggedParts(groups, lo, n);
  }

  lemma {:induction false} CanMergeAlone(cfg: Config, st: Packing, g: GroupValue)
    requires st.open.None? && st.top.None?
    ensures CanMerge(cfg, st, g) <==> SumTokens(cfg, g.items) <= cfg.size
  {
  }

  lemma {:induction false} PackUpTo(cfg: Config, groups: seq<GroupValue>, n: nat)
    requires 0 < n <= |groups|
    ensures OpenRunNonEmpty(PackAll(cfg, groups[..n - 1]))
    ensures PackAll(cfg, groups[..n]) == Pack(cfg, PackAll(cfg, groups[..n - 1]), groups[n - 1], n - 1)
  {
    hide Pack, PackAll;
    PackAllUnfolds(cfg, groups[..n]);
    assert groups[..n][..n - 1] == groups[..n - 1] && Last(groups[..n]) == groups[n - 1];
  }

  lemma {:induction false} NothingPacked(cfg: Config, groups: seq<GroupValue>)
    ensures var st := PackAll(cfg, groups[..0]);
            Blocked(cfg, groups, 0, Sealed(st.done, st.open), []) && OpenBlock(groups, st, [])
  {
  }

  lemma {:induction false} PackAllBlocked(cfg: Config, groups: seq<GroupValue>, n: nat) returns (blocks: seq<Block>)
    requires n <= |groups| && GroupsHaveContent(groups)
    ensures var st := PackAll(cfg, groups[..n]);
            Blocked(cfg, groups, n, Sealed(st.done, st.open), blocks) && OpenBlock(groups, st, blocks)
  {
    hide Blocked, OpenBlock, Pack, PackAll, GroupsHaveContent, CanMerge, Sealed;
    if n == 0 {
      blocks := [];
      NothingPacked(cfg, groups);
    } else {
      blocks := PackAllBlocked(cfg, groups, n - 1);
      PackUpTo(cfg, groups, n);
      var st := PackAll(cfg, groups[..n - 1]);
      if CanMerge(cfg, st, groups[n - 1]) {
        blocks := MergedBlocked(cfg, groups, n - 1, st, blocks);
      } else {
        blocks := AloneBlocked(cfg, groups, n - 1, st, blocks);
      }
    }
  }

  lemma MergedBlocked(cfg: Config, groups: seq<GroupValue>, n: nat, st: Packing, blocks: seq<Block>) returns (r: seq<Block>)
    requires n < |groups| && GroupsHaveContent(groups) && OpenRunNonEmpty(st) && CanMerge(cfg, st, groups[n])
    requires Blocked(cfg, groups, n, Sealed(st.done, st.open), blocks) && OpenBlock(groups, st, blocks)
    ensures var t := Pack(cfg, st, groups[n], n);
            Blocked(cfg, groups, n + 1, Sealed(t.done, t.open), r) && OpenBlock(groups, t, r)
  {
    hide CanMerge, AppendAll, Enter, Titles, Blocked;
    var g := groups[n];
    var titles, pieces := Titles(Enter(st.stack, g)), Tag(g.items, n);
    assert g.items != [];
    AppendAllPieces(st.open, pieces, titles);
    AppendAllNonEmpty(st.open, pieces, titles);
    var run := AppendAll(st.open, pieces, titles).value;
    if st.open.Some? {
      var b := Last(blocks);
      BlockedInit(cfg, groups, n, Sealed(st.done, st.open), blocks);
      LongerBlock(cfg, groups, n, st, blocks, run);
      r := blocks[..|blocks| - 1] + [b.(hi := n + 1)];
    } else {
      var b := Block(n, n + 1, |st.done|, |st.done| + 1, false);
      NewBlock(cfg, groups, n, st, blocks, run);
      r := blocks + [b];
    }
  }

  lemma LongerBlockTrue(cfg: Config, groups: seq<GroupValue>, before: seq<Run>, after: seq<Run>, prev: Option<Block>,
                        b: Block, n: nat)
    requires BlockTrue(cfg, groups, before, prev, b) && !b.alone && b.hi == n < |groups| && b.lo < n
    requires MayJoin(cfg, groups, b.lo, n) && |after| == |before|
    requires b.from < |before| && after[b.from].pieces == before[b.from].pieces + Tag(groups[n].items, n)
    ensures BlockTrue(cfg, groups, after, prev, b.(hi := n + 1))
  {
    hide MayJoin, Tagged, SumTokens, FilledTight, ExpandAll, RunsPieces, Tag;
    TaggedStep(groups, b.lo, n);
  }

  /** The last block takes one more group. */
  lemma LongerBlock(cfg: Config, groups: seq<GroupValue>, n: nat, st: Packing, blocks: seq<Block>, run: Run)
    requires n < |groups| && GroupsHaveContent(groups) && OpenRunNonEmpty(st) && CanMerge(cfg, st, groups[n])
    requires st.open.Some? && run.pieces == st.open.value.pieces + Tag(groups[n].items, n)
    requires Blocked(cfg, groups, n, st.done + [st.open.value], blocks) && OpenBlock(groups, st, blocks)
    ensures Blocked(cfg, groups, n + 1, st.done + [run], blocks[..|blocks| - 1] + [Last(blocks).(hi := n + 1)])
  {
    hide BlockTrue, CanMerge, MayJoin, Tagged, GroupsHaveContent;
    var before, after := st.done + [st.open.value], st.done + [run];
    var b, init := Last(blocks), blocks[..|blocks| - 1];
    var prev, longer := Before(blocks, |blocks| - 1), b.(hi := n + 1);
    BlockAt(cfg, groups, n, before, blocks, |blocks| - 1);
    BlockShape(cfg, groups, before, prev, b);
    OpenHolds(cfg, groups, before, prev, b);
    GroupsHaveItems(groups);
    CanMergeMeansMayJoin(cfg, groups, st, b.lo, n);
    LongerBlockTrue(cfg, groups, before, after, prev, b, n);
    BlockedInit(cfg, groups, n, before, blocks);
    assert before[..b.from] == st.done;
    hide Blocked;
    assert Before(init, |init|) == prev;
    BlockedSnoc(cfg, groups, b.lo, st.done, init, after, longer);
  }

  lemma {:induction false} OpenHolds(cfg: Config, groups: seq<GroupValue>, runs: seq<Run>, prev: Option<Block>, b: Block)
    requires BlockTrue(cfg, groups, runs, prev, b) && !b.alone
    ensures b.lo < b.hi <= |groups| && b.from < |runs| && runs[b.from].pieces == Tagged(groups, b.lo, b.hi)
  {
    hide MayJoin, Tagged, SumTokens, FilledTight, ExpandAll, RunsPieces, Tag;
  }

  lemma GroupsHaveItems(groups: seq<GroupValue>)
    requires GroupsHaveContent(groups)
    ensures forall k :: 0 <= k < |groups| ==> groups[k].items != []
  {
  }

  /** A group starts a block. */
  lemma NewBlock(cfg: Config, groups: seq<GroupValue>, n: nat, st: Packing, blocks: seq<Block>, run: Run)
    requires n < |groups| && OpenRunNonEmpty(st) && CanMerge(cfg, st, groups[n])
    requires st.open.None? && run.pieces == Tag(groups[n].items, n)
    requires Blocked(cfg, groups, n, st.done, blocks) && OpenBlock(groups, st, blocks)
    ensures Blocked(cfg, groups, n + 1, st.done + [run], blocks + [Block(n, n + 1, |st.done|, |st.done| + 1, false)])
  {
    hide CanMerge, BlockTrue;
    var b := Block(n, n + 1, |st.done|, |st.done| + 1, false);
    CanMergeAlone(cfg, st, groups[n]);
    LastBlock(cfg, groups, n, st.done, blocks);
    hide Blocked;
    NewBlockTrue(cfg, groups, n, st.done, run, Before(blocks, |blocks|));
    BlockedSnoc(cfg, groups, n, st.done, blocks, st.done + [run], b);
  }

  lemma {:induction false} NewBlockTrue(cfg: Config, groups: seq<GroupValue>, n: nat, done: seq<Run>, run: Run, prev: Option<Block>)
    requires n < |groups| && run.pieces == Tag(groups[n].items, n) && SumTokens(cfg, groups[n].items) <= cfg.size
    requires n == (if prev.Some? then prev.value.hi else 0) && |done| == (if prev.Some? then prev.value.to else 0)
    requires prev.Some? ==> prev.value.alone
    ensures BlockTrue(cfg, groups, done + [run], prev, Block(n, n + 1, |done|, |done| + 1, false))
  {
    hide MayJoin, Tagged, SumTokens, FilledTight, ExpandAll, RunsPieces, Tag;
    TaggedStep(groups, n, n);
    assert [] + Tag(groups[n].items, n) == Tag(groups[n].items, n);
  }

  lemma BlockAt(cfg: Config, groups: seq<GroupValue>, n: nat, runs: seq<Run>, blocks: seq<Block>, k: nat)
    requires Blocked(cfg, groups, n, runs, blocks) && k < |blocks|
    ensures BlockTrue(cfg, groups, runs, Before(blocks, k), blocks[k])
  {
    hide BlockTrue;
  }

  lemma LastBlock(cfg: Config, groups: seq<GroupValue>, n: nat, runs: seq<Run>, blocks: seq<Block>)
    requires Blocked(cfg, groups, n, runs, blocks)
    ensures var prev := Before(blocks, |blocks|);
            && n == (if prev.Some? then prev.value.hi else 0) && |runs| == (if prev.Some? then prev.value.to else 0)
  {
  }

  lemma BlockShape(cfg: Config, groups: seq<GroupValue>, runs: seq<Run>, prev: Option<Block>, b: Block)
    requires BlockTrue(cfg, groups, runs, prev, b)
    ensures b.lo < b.hi <= |groups| && b.from < b.to <= |runs|
    ensures b.lo == (if prev.Some? then prev.value.hi else 0) && b.from == (if prev.Some? then prev.value.to else 0)
  {
    hide FilledTight, MayJoin, Tagged, RunsPieces, ExpandAll, SumTokens, Tag;
  }

  lemma BlockTrueFewerRuns(cfg: Config, groups: seq<GroupValue>, runs: seq<Run>, m: nat, prev: Option<Block>, b: Block)
    requires BlockTrue(cfg, groups, runs, prev, b) && b.to <= m <= |runs|
    ensures BlockTrue(cfg, groups, runs[..m], prev, b)
  {
    hide FilledTight, MayJoin, Tagged, RunsPieces, ExpandAll, SumTokens, Tag;
    assert runs[..m][b.from..b.to] == runs[b.from..b.to];
  }

  lemma BlockedInit(cfg: Config, groups: seq<GroupValue>, n: nat, runs: seq<Run>, blocks: seq<Block>)
    requires blocks != [] && Blocked(cfg, groups, n, runs, blocks)
    ensures Last(blocks).from <= |runs|
    ensures Blocked(cfg, groups, Last(blocks).lo, runs[..Last(blocks).from], blocks[..|blocks| - 1])
  {
    hide BlockTrue;
    var b, init := Last(blocks), blocks[..|blocks| - 1];
    assert BlockTrue(cfg, groups, runs, Before(blocks, |blocks| - 1), b);
    BlockShape(cfg, groups, runs, Before(blocks, |blocks| - 1), b);
    forall k | 0 <= k < |init|
      ensures BlockTrue(cfg, groups, runs[..b.from], Before(init, k), init[k])
    {
      assert BlockTrue(cfg, groups, runs, Before(blocks, k), blocks[k]);
      assert Before(init, k) == Before(blocks, k);
      BlocksEndBefore(cfg, groups, n, runs, blocks, k);
      BlockTrueFewerRuns(cfg, groups, runs, b.from, Before(blocks, k), blocks[k]);
    }
  }

  lemma {:induction false} BlocksEndBefore(cfg: Config, groups: seq<GroupValue>, n: nat, runs: seq<Run>, blocks: seq<Block>, k: nat)
    requires Blocked(cfg, groups, n, runs, blocks) && k < |blocks| - 1
    ensures blocks[k].to <= Last(blocks).from
    decreases |blocks| - k
  {
    hide BlockTrue;
    assert BlockTrue(cfg, groups, runs, Before(blocks, k + 1), blocks[k + 1]);
    BlockShape(cfg, groups, runs, Before(blocks, k + 1), blocks[k + 1]);
    if k + 1 < |blocks| - 1 {
      BlocksEndBefore(cfg, groups, n, runs, blocks, k + 1);
    }
  }

  /** Why a group is packed alone. */
  lemma {:induction false} AloneReason(cfg: Config, groups: seq<GroupValue>, n: nat, st: Packing, blocks: seq<Block>)
    requires n < |groups| && GroupsHaveContent(groups) && OpenRunNonEmpty(st) && !CanMerge(cfg, st, groups[n])
    requires Blocked(cfg, groups, n, Sealed(st.done, st.open), blocks) && OpenBlock(groups, st, blocks)
    ensures var prev := Before(blocks, |blocks|);
            if prev.Some? && !prev.value.alone && prev.value.lo < n then !MayJoin(cfg, groups, prev.value.lo, n)
            else SumTokens(cfg, groups[n].items) > cfg.size
  {
    hide CanMerge, MayJoin, Tagged, SumTokens, BlockTrue, GroupsHaveContent;
    var before := Sealed(st.done, st.open);
    if st.open.Some? {
      var last, prev := Last(blocks), Before(blocks, |blocks| - 1);
      BlockAt(cfg, groups, n, before, blocks, |blocks| - 1);
      BlockShape(cfg, groups, before, prev, last);
      OpenHolds(cfg, groups, before, prev, last);
      GroupsHaveItems(groups);
      CanMergeMeansMayJoin(cfg, groups, st, last.lo, n);
    } else {
      CanMergeAlone(cfg, st, groups[n]);
    }
  }

  /** The output parts of a group packed alone. */
  lemma {:induction false} AloneRuns(cfg: Config, g: GroupValue, index: nat, titles: seq<string>)
    requires g.items != [] && AllContent(g.items)
    ensures var f := FillAll(cfg, Tag(ExpandAll(cfg, g.items), index), titles);
            var own := Sealed(f.done, f.open);
            own != [] && FilledTight(cfg, own) && RunsPieces(own) == Tag(ExpandAll(cfg, g.items), index)
  {
    hide FillAll, FilledTight, ExpandAll, RunsPieces, AllContent;
    var pieces := Tag(ExpandAll(cfg, g.items), index);
    ExpandAllNonEmpty(cfg, g.items);
    FillAllTight(cfg, pieces, titles);
    FillAllPieces(cfg, pieces, titles);
  }

  lemma AloneBlocked(cfg: Config, groups: seq<GroupValue>, n: nat, st: Packing, blocks: seq<Block>) returns (r: seq<Block>)
    requires n < |groups| && GroupsHaveContent(groups) && OpenRunNonEmpty(st) && !CanMerge(cfg, st, groups[n])
    requires Blocked(cfg, groups, n, Sealed(st.done, st.open), blocks) && OpenBlock(groups, st, blocks)
    ensures var t := Pack(cfg, st, groups[n], n);
            Blocked(cfg, groups, n + 1, Sealed(t.done, t.open), r) && OpenBlock(groups, t, r)
  {
    hide CanMerge, FillAll, Enter, Titles, ExpandAll, Blocked, FilledTight, RunsPieces;
    var g := groups[n];
    var titles := Titles(Enter(st.stack, g));
    var t := Pack(cfg, st, g, n);
    var f := FillAll(cfg, Tag(ExpandAll(cfg, g.items), n), titles);
    var before, own := Sealed(st.done, st.open), Sealed(f.done, f.open);
    assert t.done == before + own && t.open.None? && t.top.None?;
    assert g.items != [] && AllContent(g.items);
    AloneRuns(cfg, g, n, titles);
    AloneReason(cfg, groups, n, st, blocks);
    AddAlone(cfg, groups, n, before, own, blocks);
    r := blocks + [Block(n, n + 1, |before|, |before + own|, true)];
  }

  lemma {:induction false} AddAlone(cfg: Config, groups: seq<GroupValue>, n: nat, before: seq<Run>, own: seq<Run>, blocks: seq<Block>)
    requires n < |groups| && Blocked(cfg, groups, n, before, blocks)
    requires own != [] && FilledTight(cfg, own) && RunsPieces(own) == Tag(ExpandAll(cfg, groups[n].items), n)
    requires var prev := Before(blocks, |blocks|);
             if prev.Some? && !prev.value.alone && prev.value.lo < n then !MayJoin(cfg, groups, prev.value.lo, n)
             else SumTokens(cfg, groups[n].items) > cfg.size
    ensures Blocked(cfg, groups, n + 1, before + own, blocks + [Block(n, n + 1, |before|, |before + own|, true)])
  {
    hide MayJoin, Tagged, SumTokens, FilledTight, ExpandAll, RunsPieces, Tag;
    var b := Block(n, n + 1, |before|, |before + own|, true);
    assert (before + own)[b.from..b.to] == own;
    LastBlock(cfg, groups, n, before, blocks);
    hide Blocked;
    assert BlockTrue(cfg, groups, before + own, Before(blocks, |blocks|), b);
    hide BlockTrue;
    BlockedSnoc(cfg, groups, n, before, blocks, before + own, b);
  }

  // ----- Packing is maximal -----

  /** The groups of a document fall into blocks. A block of several groups is one output part,
      and holds all that may join. A group on its own is packed into parts of its own, filled
      as far as they go, and it is so because it may not join the part before it, or because
      it is over the limit itself. */
  lemma PackingIsMaximal(cfg: Config, parts: seq<PartValue>) returns (blocks: seq<Block>)
    ensures Blocked(cfg, Groups(parts), |Groups(parts)|, Rechunk(cfg, parts), blocks)
  {
    hide Blocked, GroupsHaveContent;
    var groups := Groups(parts);
    GroupsOfPartsHaveContent(parts);
    blocks := PackAllBlocked(cfg, groups, |groups|);
    assert groups[..|groups|] == groups;
  }

  lemma GroupsOfPartsHaveContent(parts: seq<PartValue>)
    ensures GroupsHaveContent(Groups(parts))
  {
    hide GroupsHaveContent;
    GroupPartsHaveContent(parts);
    MergeTitlesHasContent(GroupParts(parts).groups, 0);
  }

  /** All groups may join the first one, which fits. */
  ghost predicate AllMayJoin(cfg: Config, groups: seq<GroupValue>) {
    groups != [] && SumTokens(cfg, groups[0].items) <= cfg.size
    && forall j :: 0 < j < |groups| ==> MayJoin(cfg, groups, 0, j)
  }

  /** The block after one that is not alone is a group that may not join. */
  lemma SecondBlock(cfg: Config, groups: seq<GroupValue>, n: nat, runs: seq<Run>, blocks: seq<Block>)
    requires Blocked(cfg, groups, n, runs, blocks) && |blocks| > 1 && !blocks[0].alone
    ensures blocks[0].lo == 0 < blocks[1].lo < |groups| && !MayJoin(cfg, groups, 0, blocks[1].lo)
  {
    hide FilledTight, MayJoin, Tagged, RunsPieces, ExpandAll, SumTokens, Tag;
    BlockAt(cfg, groups, n, runs, blocks, 0);
    BlockAt(cfg, groups, n, runs, blocks, 1);
  }

  lemma JoiningMakesOne(cfg: Config, groups: seq<GroupValue>, runs: seq<Run>, blocks: seq<Block>)
    requires Blocked(cfg, groups, |groups|, runs, blocks) && AllMayJoin(cfg, groups)
    ensures |runs| == 1
  {
    hide FilledTight, MayJoin, Tagged, RunsPieces, ExpandAll, SumTokens, Tag;
    BlockAt(cfg, groups, |groups|, runs, blocks, 0);
    if |blocks| > 1 {
      SecondBlock(cfg, groups, |groups|, runs, blocks);
    }
  }

  lemma OneMeansJoining(cfg: Config, groups: seq<GroupValue>, runs: seq<Run>, blocks: seq<Block>)
    requires Blocked(cfg, groups, |groups|, runs, blocks) && |groups| >= 2 && |runs| == 1
    ensures AllMayJoin(cfg, groups)
  {
    hide FilledTight, MayJoin, Tagged, RunsPieces, ExpandAll, SumTokens, Tag;
    assert blocks != [];
    BlockAt(cfg, groups, |groups|, runs, blocks, 0);
    BlockAt(cfg, groups, |groups|, runs, blocks, |blocks| - 1);
  }

  /** A document of several groups becomes a single output part if and only if all of them
      may join the first one. */
  lemma OnePartExactly(cfg: Config, parts: seq<PartValue>)
    requires |Groups(parts)| >= 2
    ensures |Rechunk(cfg, parts)| == 1 <==> AllMayJoin(cfg, Groups(parts))
  {
    hide Blocked, AllMayJoin, Rechunk;
    var blocks := PackingIsMaximal(cfg, parts);
    if AllMayJoin(cfg, Groups(parts)) {
      JoiningMakesOne(cfg, Groups(parts), Rechunk(cfg, parts), blocks);
    }
    if |Rechunk(cfg, parts)| == 1 {
      OneMeansJoining(cfg, Groups(parts), Rechunk(cfg, parts), blocks);
    }
  }

  // ----- A document that fits -----

  ghost predicate JoinAdds(tok: string -> nat, x: string, y: string) {
    tok(x) + tok(y) <= tok(x + "\n\n" + y)
  }

  /** Joining texts loses no tokens. */
  ghost predicate JoinsAdd(tok: string -> nat) {
    forall x: string, y: string :: JoinAdds(tok, x, y)
  }

  lemma {:induction false} JoinedCoversBoth(cfg: Config, a: seq<Piece>, b: seq<Piece>)
    requires JoinsAdd(cfg.tokenizer) && a != []
    ensures cfg.tokenizer(RunText(a)) + SumTokens(cfg, PartsOf(b)) <= cfg.tokenizer(RunText(a + b))
  {
    hide JoinsAdd, RunText, SumTokens, PartsOf;
    if b == [] {
      assert a + b == a;
      NoTokensOfNothing(cfg);
    } else {
      var init, last := b[..|b| - 1], Last(b);
      JoinedCoversBoth(cfg, a, init);
      assert b == init + [last] && a + b == a + init + [last];
      SumTokensSnoc(cfg, init, last);
      RunTextSnoc(a + init, last);
      JoinAddsAt(cfg.tokenizer, RunText(a + init), last.part.content);
    }
  }

  lemma {:induction false} NoTokensOfNothing(cfg: Config)
    ensures SumTokens(cfg, PartsOf([])) == 0
  {
  }

  lemma JoinAddsAt(tok: string -> nat, x: string, y: string)
    requires JoinsAdd(tok)
    ensures tok(x) + tok(y) <= tok(x + "\n\n" + y)
  {
    assert JoinAdds(tok, x, y);
  }

  /** The tokens of the first parts are at most those of all. */
  lemma {:induction false} TextGrows(cfg: Config, groups: seq<GroupValue>, j: nat, n: nat)
    requires JoinsAdd(cfg.tokenizer) && 0 < j <= n <= |groups| && forall k :: 0 <= k < |groups| ==> groups[k].items != []
    ensures cfg.tokenizer(RunText(Tagged(groups, 0, j))) <= cfg.tokenizer(RunText(Tagged(groups, 0, n)))
    ensures j < n ==> cfg.tokenizer(RunText(Tagged(groups, 0, j))) + SumTokens(cfg, groups[j].items)
                      <= cfg.tokenizer(RunText(Tagged(groups, 0, n)))
    decreases n - j
  {
    hide JoinsAdd, RunText, SumTokens, Tagged, PartsOf;
    if j < n {
      TextGrows(cfg, groups, j + 1, n);
      TaggedStep(groups, 0, j);
      TaggedParts(groups, 0, j);
      JoinedCoversBoth(cfg, Tagged(groups, 0, j), Tag(groups[j].items, j));
      PartsOfTag(groups[j].items, j);
    }
  }

  lemma {:induction false} FirstGroupFits(cfg: Config, g: GroupValue)
    requires JoinsAdd(cfg.tokenizer) && g.items != []
    ensures SumTokens(cfg, g.items) <= cfg.tokenizer(RunText(Tag(g.items, 0)))
  {
    hide JoinsAdd, RunText, SumTokens, PartsOf;
    var pieces := Tag(g.items, 0);
    var first, rest := pieces[..1], pieces[1..];
    assert pieces == first + rest && first == [pieces[0]];
    JoinedCoversBoth(cfg, first, rest);
    SingleText(cfg, pieces[0]);
    FirstAndRest(cfg, pieces[0], rest);
    PartsOfTag(g.items, 0);
  }

  lemma {:induction false} FirstAndRest(cfg: Config, first: Piece, rest: seq<Piece>)
    ensures SumTokens(cfg, PartsOf([first] + rest)) == Tokens(cfg, first.part) + SumTokens(cfg, PartsOf(rest))
  {
    hide SumTokens, PartsOf;
    SingleText(cfg, first);
    if rest == [] {
      NoTokensOfNothing(cfg);
      assert [first] + rest == [first];
    } else {
      var init, last := rest[..|rest| - 1], Last(rest);
      FirstAndRest(cfg, first, init);
      assert rest == init + [last] && [first] + rest == [first] + init + [last];
      SumTokensSnoc(cfg, init, last);
      SumTokensSnoc(cfg, [first] + init, last);
    }
  }

  /** A document whose whole text is within the limit, with no FAQ entry and no group above
      the first one, becomes a single output part. */
  lemma FittingDocumentIsOnePart(cfg: Config, parts: seq<PartValue>)
    requires JoinsAdd(cfg.tokenizer) && Groups(parts) != []
    requires forall g <- Groups(parts) :: Groups(parts)[0].level <= g.level
    requires forall g <- Groups(parts), p <- g.items :: !p.faq
    requires cfg.tokenizer(RunText(Tagged(Groups(parts), 0, |Groups(parts)|))) <= cfg.size
    ensures |Rechunk(cfg, parts)| == 1
  {
    hide JoinsAdd, RunText, SumTokens, Tagged, Rechunk, Blocked, Groups;
    var groups := Groups(parts);
    GroupsOfPartsHaveContent(parts);
    var blocks := PackingIsMaximal(cfg, parts);
    forall j | 0 < j < |groups|
      ensures MayJoin(cfg, groups, 0, j)
    {
      assert groups[j] in groups && groups[0] in groups;
      TextGrows(cfg, groups, j, |groups|);
    }
    FirstGroupFits(cfg, groups[0]);
    TaggedStep(groups, 0, 0);
    assert [] + Tag(groups[0].items, 0) == Tag(groups[0].items, 0);
    TextGrows(cfg, groups, 1, |groups|);
    JoiningMakesOne(cfg, groups, Rechunk(cfg, parts), blocks);
  }
}
