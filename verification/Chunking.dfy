/** The rechunking pipeline on values: grouping parts under headings, merging
    title-only groups, and packing groups into parts under a token limit. */
module Chunking {
  import opened Common
  import opened Splitter
  import opened PageLists

  datatype Config = Config(tokenizer: Tokenizer, size: int, overlap: int)

  /** Line interval of the markdown a part came from. */
  datatype Span = Span(first: int, last: int)

  /** A document part; an absent content is the empty text. The level is that of
      a heading; pages is the list its pdf_source_map refers to. The token cache is not
      part of the value. */
  datatype PartValue = PartValue(
    content: string,
    level: Option<int>,
    nesting: int,
    faq: bool,
    faqId: string,
    splitted: bool,
    lines: Option<Span>,
    pages: Option<ListId>,
    titles: Option<seq<string>>)

  datatype GroupValue = GroupValue(level: int, title: string, items: seq<PartValue>)

  // ----- Grouping -----

  function TitleLevel(p: PartValue): int {
    if p.level.Some? then p.level.value else 0
  }

  function NewGroup(p: PartValue): GroupValue {
    GroupValue(TitleLevel(p), if p.level.Some? then p.content else "", [p])
  }

  /** Groups built so far, and whether the last one still takes parts. */
  datatype Grouping = Grouping(groups: seq<GroupValue>, open: bool)

  function AddPart(g: Grouping, p: PartValue): (r: Grouping)
    requires g.open ==> g.groups != []
    ensures r.open ==> r.groups != []
  {
    if p.content == "" then g
    else if p.faq then
      var closed := if g.open then g.groups + [Last(g.groups)] else g.groups;
      Grouping(closed + [GroupValue(0, p.faqId, [p])], false)
    else if !g.open then Grouping(g.groups + [NewGroup(p)], true)
    else if TitleLevel(p) == 0 || p.nesting != 0 then
      var last := Last(g.groups);
      Grouping(g.groups[..|g.groups| - 1] + [last.(items := last.items + [p])], true)
    else Grouping(g.groups + [NewGroup(p)], true)
  }

  function GroupParts(parts: seq<PartValue>): (r: Grouping)
    ensures r.open ==> r.groups != []
  {
    if parts == [] then Grouping([], false)
    else AddPart(GroupParts(parts[..|parts| - 1]), Last(parts))
  }

  // ----- Merging title-only groups -----

  predicate PureTitle(g: GroupValue) {
    g.level > 0 && |g.items| == 1
  }

  /** End of the run of title-only groups of level at least top that starts at j. */
  function TitleRun(groups: seq<GroupValue>, j: nat, top: int): (r: nat)
    requires j <= |groups|
    ensures j <= r <= |groups|
    decreases |groups| - j
  {
    if j < |groups| && PureTitle(groups[j]) && groups[j].level >= top then TitleRun(groups, j + 1, top) else j
  }

  /** End of what the title-only group at i absorbs: titles, then one content group. */
  function RunEnd(groups: seq<GroupValue>, i: nat): (r: nat)
    requires i < |groups|
    ensures i < r <= |groups|
  {
    var j := TitleRun(groups, i + 1, groups[i].level);
    if j < |groups| && !PureTitle(groups[j]) && (groups[j].level == 0 || groups[j].level >= groups[i].level) then j + 1
    else j
  }

  function Items(groups: seq<GroupValue>): seq<PartValue> {
    if groups == [] then [] else groups[0].items + Items(groups[1..])
  }

  function MergeTitles(groups: seq<GroupValue>, i: nat): seq<GroupValue>
    requires i <= |groups|
    decreases |groups| - i
  {
    if i == |groups| then []
    else if !PureTitle(groups[i]) then [groups[i]] + MergeTitles(groups, i + 1)
    else
      var j := RunEnd(groups, i);
      [groups[i].(items := Items(groups[i..j]))] + MergeTitles(groups, j)
  }

  // ----- Splitting oversized parts -----

  function Tokens(cfg: Config, p: PartValue): nat {
    cfg.tokenizer(p.content)
  }

  function SumTokens(cfg: Config, items: seq<PartValue>): nat {
    if items == [] then 0 else SumTokens(cfg, items[..|items| - 1]) + Tokens(cfg, Last(items))
  }

  function SplitParts(p: PartValue, chunks: seq<string>): (r: seq<PartValue>)
    ensures |r| == |chunks|
  {
    seq(|chunks|, i requires 0 <= i < |chunks| => p.(content := chunks[i], level := None, splitted := true))
  }

  function Expand(cfg: Config, p: PartValue): seq<PartValue> {
    if !p.faq && Tokens(cfg, p) > cfg.size
    then SplitParts(p, Split(cfg.tokenizer, p.content, cfg.size, cfg.overlap, 0))
    else [p]
  }

  /** The parts to pack: each oversized part that is no FAQ entry is replaced by its chunks. */
  function ExpandAll(cfg: Config, items: seq<PartValue>): seq<PartValue> {
    if items == [] then [] else ExpandAll(cfg, items[..|items| - 1]) + Expand(cfg, Last(items))
  }

  // ----- Packing -----

  /** A part to pack, and the index of the group it comes from. */
  datatype Piece = Piece(part: PartValue, group: nat)

  function Tag(parts: seq<PartValue>, group: nat): (r: seq<Piece>)
    ensures |r| == |parts| && forall i :: 0 <= i < |r| ==> r[i] == Piece(parts[i], group)
  {
    seq(|parts|, i requires 0 <= i < |parts| => Piece(parts[i], group))
  }

  /** What becomes one output part: its pieces and the heading chain of the first. */
  datatype Run = Run(pieces: seq<Piece>, titles: seq<string>)

  function RunText(pieces: seq<Piece>): string {
    if pieces == [] then ""
    else if |pieces| == 1 then pieces[0].part.content
    else RunText(pieces[..|pieces| - 1]) + "\n\n" + Last(pieces).part.content
  }

  function MergeLines(dest: Option<Span>, src: Option<Span>): Option<Span> {
    if dest.None? then src
    else if src.None? then dest
    else Some(Span(Min(dest.value.first, src.value.first), Max(dest.value.last, src.value.last)))
  }

  function RunLines(pieces: seq<Piece>): Option<Span> {
    if pieces == [] then None else MergeLines(RunLines(pieces[..|pieces| - 1]), Last(pieces).part.lines)
  }

  /** The page list of a run: that of its first piece with one. */
  function RunPages(pieces: seq<Piece>): Option<ListId> {
    if pieces == [] then None else Taken(RunPages(pieces[..|pieces| - 1]), Last(pieces).part.pages)
  }

  /** The output part of a run: metadata of its first piece, texts joined by blank
      lines, line intervals merged. */
  function Render(run: Run): PartValue
    requires run.pieces != []
  {
    var first := run.pieces[0].part;
    first.(content := RunText(run.pieces), level := None, lines := RunLines(run.pieces),
           pages := RunPages(run.pieces),
           titles := if run.titles == [] then first.titles else Some(run.titles))
  }

  function Append(open: Option<Run>, piece: Piece, titles: seq<string>): (r: Run)
    ensures r.pieces != []
  {
    if open.None? then Run([piece], titles) else open.value.(pieces := open.value.pieces + [piece])
  }

  function AppendAll(open: Option<Run>, pieces: seq<Piece>, titles: seq<string>): Option<Run> {
    if pieces == [] then open
    else Some(Append(AppendAll(open, pieces[..|pieces| - 1], titles), Last(pieces), titles))
  }

  function Sealed(done: seq<Run>, open: Option<Run>): seq<Run> {
    if open.None? then done else done + [open.value]
  }

  /** Packing of the pieces of one group that does not fit into the part before it. */
  datatype Filling = Filling(done: seq<Run>, open: Option<Run>, sum: nat, prevSplitted: bool)

  function Fill(cfg: Config, f: Filling, piece: Piece, titles: seq<string>): Filling {
    var tokens := Tokens(cfg, piece.part);
    var seal := f.sum + tokens > cfg.size || (f.prevSplitted && !piece.part.splitted);
    var done := if seal then Sealed(f.done, f.open) else f.done;
    var open := if seal then None else f.open;
    var sum := if seal && f.open.Some? then 0 else f.sum;
    Filling(done, Some(Append(open, piece, titles)), sum + tokens, piece.part.splitted)
  }

  function FillAll(cfg: Config, pieces: seq<Piece>, titles: seq<string>): Filling {
    if pieces == [] then Filling([], None, 0, false)
    else Fill(cfg, FillAll(cfg, pieces[..|pieces| - 1], titles), Last(pieces), titles)
  }

  /** Headings the current group is under, outermost first. */
  type TitleStack = seq<(string, int)>

  function Pop(stack: TitleStack, level: int): TitleStack {
    if stack != [] && Last(stack).1 >= level then Pop(stack[..|stack| - 1], level) else stack
  }

  function Enter(stack: TitleStack, g: GroupValue): TitleStack {
    Pop(stack, g.level) + if g.level > 0 then [(g.title, g.level)] else []
  }

  function Titles(stack: TitleStack): (r: seq<string>)
    ensures |r| == |stack|
  {
    seq(|stack|, i requires 0 <= i < |stack| => stack[i].0)
  }

  predicate HasFaq(items: seq<PartValue>) {
    exists i :: 0 <= i < |items| && items[i].faq
  }

  /** Packing so far: sealed runs, the open run, and the level of its first group. */
  datatype Packing = Packing(stack: TitleStack, done: seq<Run>, open: Option<Run>, top: Option<int>)

  predicate CanMerge(cfg: Config, st: Packing, g: GroupValue)
    requires st.open.Some? ==> st.open.value.pieces != []
  {
    && (st.top.Some? ==> st.top.value <= g.level)
    && (st.open.Some? ==> !st.open.value.pieces[0].part.faq && !HasFaq(g.items))
    && (if st.open.Some? then cfg.tokenizer(RunText(st.open.value.pieces)) else 0) + SumTokens(cfg, g.items) <= cfg.size
  }

  predicate OpenRunNonEmpty(st: Packing) {
    st.open.Some? ==> st.open.value.pieces != []
  }

  function Pack(cfg: Config, st: Packing, g: GroupValue, index: nat): (r: Packing)
    requires OpenRunNonEmpty(st)
    ensures OpenRunNonEmpty(r)
  {
    var stack := Enter(st.stack, g);
    var titles := Titles(stack);
    if CanMerge(cfg, st, g) then
      Packing(stack, st.done, AppendAll(st.open, Tag(g.items, index), titles),
              if st.top.None? then Some(g.level) else st.top)
    else
      var f := FillAll(cfg, Tag(ExpandAll(cfg, g.items), index), titles);
      Packing(stack, Sealed(Sealed(st.done, st.open) + f.done, f.open), None, None)
  }

  function PackAll(cfg: Config, groups: seq<GroupValue>): (r: Packing)
    ensures OpenRunNonEmpty(r)
  {
    if groups == [] then Packing([], [], None, None)
    else Pack(cfg, PackAll(cfg, groups[..|groups| - 1]), Last(groups), |groups| - 1)
  }

  function PackedRuns(cfg: Config, groups: seq<GroupValue>): seq<Run> {
    var st := PackAll(cfg, groups);
    Sealed(st.done, st.open)
  }

  function Groups(parts: seq<PartValue>): seq<GroupValue> {
    MergeTitles(GroupParts(parts).groups, 0)
  }

  /** The whole pipeline. */
  function Rechunk(cfg: Config, parts: seq<PartValue>): seq<Run> {
    PackedRuns(cfg, Groups(parts))
  }

  // ----- Page lists -----

  /** What appending the pieces of one output part does to the page lists. */
  function FoldPieces(lists: Lists, pieces: seq<Piece>): Lists {
    if pieces == [] then lists
    else
      var init := pieces[..|pieces| - 1];
      Merged(FoldPieces(lists, init), RunPages(init), Last(pieces).part.pages)
  }

  /** The page lists after all output parts are built, one after the other. */
  function FoldRuns(lists: Lists, runs: seq<Run>): Lists {
    if runs == [] then lists else FoldPieces(FoldRuns(lists, runs[..|runs| - 1]), Last(runs).pieces)
  }

  /** The page list of the output part being built. */
  function OpenPages(open: Option<Run>): Option<ListId> {
    if open.None? then None else RunPages(open.value.pieces)
  }
}
