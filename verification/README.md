# SAPilot: verified models of its core algorithms

The `aperag` package of SAPilot parses documents into parts, cuts them into chunks, runs retrieval flows, guards shared
work with Redis locks and keeps its files in an object store. This project models six of those components in Dafny and
proves what each of them promises.

- **Chunking** (`Splitter`, `SplitterLaws`, `CutLaws`, `Chunking`, `GroupingLaws`, `SectionLaws`, `PackingLaws`,
  `MaximalLaws`, `HeadingLaws`, `FaqLaws`, `OrderLaws`, `Rechunker`). The recursive splitter is a method over eleven separator levels, halving with overlap and
  greedy merging. The rechunker is a class over mutable parts and groups, with the token cache, both source maps and the
  shared group objects and page lists of the original, proved to show `Chunking.Rechunk`, a function on values; the laws
  are proved about that function.
- **Source map** (`TextLines`, `MdLayout`, `MdBuilder`, `SourceMapLaws`, `CoverLaws`, `SourceMap`). The line intervals
  stamped while the markdown is built, and the round trip through chunking.
- **Page lists** (`PageLists`, `PageListLaws`, `PageListExample`, `PdfSourceMap`). The PDF pages of the parts, kept in
  lists that copies of metadata share and that merging extends in place.
- **Flow engine** (`FlowGraph`, `FlowLevels`, `FlowRun`, `FlowRunLaws`, `FlowEngine`). Topological sorting, levels, and a
  step system in which the nodes of a level bind, run and store in any interleaving.
- **Redis lock** (`LockProtocol`, `LockLaws`, `RedisLock`). A step system of one key, a clock and any number of lock
  instances with lost replies and watchdogs, and the lock object with its retry loop, whose every call is proved to be a
  sequence of those steps among the steps of the others.
- **Markdown converter** (`MdTokens`, `MdBlocks`, `MdBlockLaws`, `MdTextLaws`, `MdDetailLaws`, `PartConverter`). A
  cursor over a token stream with a mutable context, proved equal to recursion over the block tree, and that to a reading
  of the tree from outside that keeps all text.
- **Local object store** (`LocalStore`, `StoreLaws`, `RangedStream`). A file tree that behaves like a flat map, and a ranged stream
  that behaves like a cursor over a slice.

A tokenizer is any function from strings to token counts; a law that needs more about it says so in its `requires`.
A node runner is any deterministic function of its inputs.

## What the code does not do

Five promises do not hold of the code as it is. The model keeps the code.

- `_to_groups` appends the open group when it creates it (chunking.py:137-148) and once more when a FAQ entry closes it
  (chunking.py:123-125). The text before a FAQ entry therefore reaches the output twice
  (`PackingLaws.TextBeforeFaqIsRepeated`), and rechunking conserves content exactly when no FAQ entry directly follows
  a part that is not one (`PackingLaws.RechunkConserves`, an equivalence).
- For the same reason an output part can hold a text twice while its merged line interval holds it once
  (`SourceMapLaws.RepeatedTextBreaksRoundTrip`). For an output part without chunks the interval gives back the text
  exactly when its pieces are neighbours in the markdown (`SourceMapLaws.SourceMapRoundTrip`, an equivalence). What the
  interval of any output part does hold is the parts its pieces come from, each once (`CoverLaws.IntervalHoldsSources`).
- An output part can list pages that it holds nothing of. Chunks of one part share its page list, and so does the output
  part that takes over the list of its first piece (chunking.py:210-214, 252-258), while merging appends to that list in
  place (chunking.py:288-292). `PageListExample.PageLeaks` gives a document of two parts whose first output part, text
  of the first part alone, ends up with the page of the second. All output parts list exactly the pages of their pieces
  if and only if whatever an output part collects into a list was there already for each other output part that has this
  list, and for each later one that has a piece with it (`PageListLaws.PageListsExactly`, an equivalence).
- The comment at chunking.py:127 says that level 0 prevents the merging of FAQ groups. The title merger absorbs a
  level-0 group after a title-only one (chunking.py:86-91), so a FAQ entry there shares its part with a heading
  (`HeadingLaws.FaqAfterTitleIsMerged`). FAQ entries stay on their own at every token limit exactly when none directly
  follows a heading that makes up a group alone (`FaqLaws.FaqsIsolatedAtEverySize`, an equivalence).
- The lock alone does not exclude. Beside an instance in its section a resting one can get in, at once and by its own
  steps, exactly when the key is free (`LockLaws.OverlapExactlyWhenFree`, an equivalence over all reachable worlds),
  which it is once the expiry time of the last SET or renewal has passed (`LockLaws.OverdueHolderCanBeJoined`);
  `LockLaws.LateHolderOverlaps` is a run that does it. In punctual runs nobody can (`LockLaws.MutualExclusion`).

An empty flow is reported as a cycle (engine.py:187-189), which `FlowGraph.TopologicalSort` states.

## Model

| member | source | states |
|---|---|---|
| Splitter.CutRightSide | aperag/docparser/chunking.py:386-399 | the binary search computes the overlap function |
| Splitter.CutRight | aperag/docparser/chunking.py:386-399 | the overlap is a suffix that fits, or nothing, for any tokenizer |
| Splitter.CutRightIsLongest | aperag/docparser/chunking.py:386-399 | when fitting is closed under suffixes, no longer suffix fits |
| Splitter.Overlap | aperag/docparser/chunking.py:352-360 | the overlap is a suffix of the left half, never all of it, and fits chunk_overlap |
| Splitter.RightHalf | aperag/docparser/chunking.py:350-361 | even with the overlap in front the right half is shorter than the text, which is why the splitter ends |
| Splitter.CutAtSeparators | aperag/docparser/chunking.py:364-371 | the loops over separators and chunks cut as the level function does |
| Splitter.CutLevelKeepsText | aperag/docparser/chunking.py:364-371 | cutting at all separators of a level loses no character |
| Splitter.MergeSmallChunks | aperag/docparser/chunking.py:401-415 | the loop with its open chunk is greedy merging |
| Splitter.RecursiveSplit | aperag/docparser/chunking.py:342-384 | the splitter ends on every input, by text length and then levels left, and computes the specification |
| SplitterLaws.SplitIsGood | aperag/docparser/chunking.py:342-384 | for any tokenizer every chunk is non-empty and fits chunk_size or is one character |
| SplitterLaws.SplitNonEmpty | aperag/docparser/chunking.py:342-346 | a non-empty text has a chunk |
| SplitterLaws.SplitWalks | aperag/docparser/chunking.py:342-384 | the chunks read in order walk through the text from its first to its last character, by steps of one forward or jumps back over text that fits chunk_overlap |
| SplitterLaws.SplitConserves | aperag/docparser/chunking.py:342-384 | without overlap the chunks concatenate to the text; with it every character is still visited |
| SplitterLaws.GreedyIsMonotone | aperag/docparser/chunking.py:401-415 | a longer open chunk never leads to fewer chunks, and to at most one more |
| SplitterLaws.GreedyIsOptimal | aperag/docparser/chunking.py:401-415 | no order-preserving grouping into fitting or single pieces has fewer chunks |
| SplitterLaws.GreedyIsGrouping | aperag/docparser/chunking.py:401-415 | greedy merging is itself such a grouping, so it reaches the minimum |
| SplitterLaws.NoNeighboursFit | aperag/docparser/chunking.py:401-415 | no two neighbouring results fit together |
| CutLaws.IndexIsFirst | aperag/docparser/chunking.py:368 | the position found is the first occurrence of the separator, and none is reported exactly when there is none |
| CutLaws.CutsBehindSeparators | aperag/docparser/chunking.py:319-331 | for any tokenizer and any levels: if all that lies between the separators of the first levels is small enough, the chunks are the text, and every boundary lies right behind one of these separators, which are given as literals |
| CutLaws.CutsAtFirstLevel | aperag/docparser/chunking.py:342-384 | if no separator of the earlier levels occurs in the text either, every boundary lies right behind a separator of that one level |
| CutLaws.ParagraphsStayWhole | aperag/docparser/chunking.py:319-331 | when every paragraph is small enough, every boundary lies right behind a blank line |
| CutLaws.ChunksAreFull | aperag/docparser/chunking.py:381-384 | when fitting is closed under substrings, no two neighbouring chunks of any text fit together |
| CutLaws.OverlapIsLongest | aperag/docparser/chunking.py:352-360 | the right half starts with the longest end of the second part of the left half that fits chunk_overlap |
| CutLaws.HalvesOverlap | aperag/docparser/chunking.py:348-362 | below the last level a text that is too large becomes its left half and its right half with that repetition, each split further |
| CutLaws.PartIsCutBehindSeparators | aperag/docparser/chunking.py:205-216 | the chunks of an oversized part are cut from the first level on, are full, and have the metadata of the part but its level |
| CutLaws.PartIsHalved | aperag/docparser/chunking.py:205-216 | an oversized part without separators whose halves fit, but not together, becomes these two, the right one with the longest repetition that chunk_overlap allows |
| GroupingLaws.GroupingCounts | aperag/docparser/chunking.py:105-150 | grouping keeps the sequence of non-empty parts exactly when no FAQ entry follows other content, and otherwise lists too many |
| GroupingLaws.AddPartItems | aperag/docparser/chunking.py:109-148 | one more part is appended; a FAQ entry repeats the open group before it |
| GroupingLaws.MergeTitlesKeepsItems | aperag/docparser/chunking.py:51-103 | title merging only regroups: the sequence of parts stays |
| GroupingLaws.GroupPartsIsolatesFaqs | aperag/docparser/chunking.py:120-135 | grouping gives each FAQ entry a group of its own |
| GroupingLaws.MergeTitlesIsolatesFaqs | aperag/docparser/chunking.py:70-91 | title merging keeps them alone if and only if none follows a title-only group |
| SectionLaws.GroupsAreSections | aperag/docparser/chunking.py:105-150 | before title merging the groups are the sections of the document in order, some listed twice: a section starts at the first part, at and after a FAQ entry and at an unnested heading and nowhere else, and has the level and title of its first part |
| SectionLaws.TitlesMergedExactly | aperag/docparser/chunking.py:51-103 | a lone heading takes in the lone headings after it that are not above it and one more group, exactly as far as that goes, and every other group stays alone |
| PackingLaws.PackedPieces | aperag/docparser/chunking.py:152-245 | packing covers the parts of all groups, oversized non-FAQ ones replaced by their chunks, once and in order |
| PackingLaws.RechunkConserves | aperag/docparser/chunking.py:42-45 | the whole pipeline conserves content if and only if no FAQ entry directly follows other content |
| PackingLaws.TextBeforeFaqIsRepeated | aperag/docparser/chunking.py:120-148 | a text before a FAQ entry reaches the output twice |
| PackingLaws.FittingGroupIsNotSplit | aperag/docparser/chunking.py:182-188 | a group that fits holds no part that would be split, so merging it whole skips no splitting |
| PackingLaws.RechunkWithinLimit | aperag/docparser/chunking.py:166-240 | if a blank-line join costs at most c tokens, an output part of k pieces has at most chunk_size + c(k-1) tokens, unless it is one FAQ entry or one character |
| MaximalLaws.PackingIsMaximal | aperag/docparser/chunking.py:152-245 | packing takes in all it may: groups of one output part may all join the first of them by level, FAQ and token rules; a group is packed alone only because it may not join the part before it or is over the limit itself; its pieces fill each part as far as the limit and the rule on chunks allow, and each boundary is one where they do not |
| MaximalLaws.OnePartExactly | aperag/docparser/chunking.py:166-190 | a document of several groups becomes one output part if and only if all groups may join the first |
| MaximalLaws.FittingDocumentIsOnePart | aperag/docparser/chunking.py:166-190 | if joining loses no tokens, a document within the limit, without FAQ entries and without a group above its first, becomes one output part |
| HeadingLaws.PopClosesHeadings | aperag/docparser/chunking.py:160-161 | popping leaves the headings that the new group does not close |
| HeadingLaws.EnterKeepsOpenHeadings | aperag/docparser/chunking.py:160-164 | the title stack at each group is the headings no later group has closed |
| HeadingLaws.RechunkLabels | aperag/docparser/chunking.py:159-190 | each output part carries the open headings of its first group, and no group of a lower level number is packed into it |
| HeadingLaws.OutputLabels | aperag/docparser/chunking.py:252-258 | an output part's titles are that chain, or those of its first piece if it is empty; its other metadata is that of its first piece |
| HeadingLaws.FaqSequence | aperag/docparser/chunking.py:203-205 | FAQ entries come out in order, unsplit and unrepeated, whatever their size |
| HeadingLaws.FaqIsolation | aperag/docparser/chunking.py:175-180 | when none directly follows a heading that makes up a group alone, each FAQ entry is an output part of its own |
| HeadingLaws.LoneTitlesMakePureGroups | aperag/docparser/chunking.py:137-148 | the condition on the groups, told on the input parts |
| HeadingLaws.FaqAfterTitleIsMerged | aperag/docparser/chunking.py:86-91 | a FAQ entry after a heading alone shares its part with the heading, listed twice |
| FaqLaws.MergedFaqGroups | aperag/docparser/chunking.py:65-99 | after title merging a FAQ entry is alone in its group or ends one right after a heading that is no chunk |
| FaqLaws.FillTogether | aperag/docparser/chunking.py:222-234 | a FAQ entry that fits together with all before it in its group stays with a heading before it |
| FaqLaws.FaqsIsolatedAtEverySize | aperag/docparser/chunking.py:120-135 | FAQ entries are alone in their output parts at every chunk_size if and only if none directly follows a heading that makes up a group alone |
| Rechunker.Rechunker.ToGroups | aperag/docparser/chunking.py:105-150 | the loop over shared, growing group objects builds the grouping, repeated groups included |
| Rechunker.Rechunker.GroupOne | aperag/docparser/chunking.py:113-148 | one part opens, extends or closes a group as the grouping says |
| Rechunker.Rechunker.MergeConsecutiveTitleGroups | aperag/docparser/chunking.py:51-103 | the two-index loop merges the runs of title-only groups |
| Rechunker.Rechunker.MergeAt | aperag/docparser/chunking.py:58-101 | one round of it: a group kept, or a title-only one merged with its followers |
| Rechunker.Rechunker.AbsorbGroups | aperag/docparser/chunking.py:70-91 | what one title-only group takes in, and where that ends |
| Rechunker.Rechunker.CountPart | aperag/docparser/chunking.py:304-311 | the cached count is returned or made, and is that of the live content |
| Rechunker.Rechunker.CountGroup | aperag/docparser/chunking.py:294-303 | a group's cached count is the sum over its parts |
| Rechunker.Rechunker.AppendPartToPart | aperag/docparser/chunking.py:252-263 | appending in place shows the longer run, and drops the stale token count |
| Rechunker.Rechunker.AppendGroupToPart | aperag/docparser/chunking.py:247-250 | appending all parts of a group |
| Rechunker.Rechunker.MergeMdSourceMap | aperag/docparser/chunking.py:265-276 | the merged interval covers both |
| PdfSourceMap.Merge | aperag/docparser/chunking.py:278-292 | the page list is taken over if there is none, and otherwise extended in place by what is missing |
| PageLists.ExtendLosesNothing | aperag/docparser/chunking.py:288-292 | merging page lists keeps the old list as a prefix, holds exactly the entries of both, and adds no duplicate |
| PageLists.ExtendAppends | aperag/docparser/chunking.py:288-292 | each missing entry is appended at the end, in the order of the other list |
| PdfSourceMap.RunMerges | aperag/docparser/chunking.py:278-292 | over every sequence of merges between parts that share lists in any way, the part merged into ends up with all that the merged one had at the start; lists only grow, from existing entries, without new duplicates |
| PdfSourceMap.MergeInto | aperag/docparser/chunking.py:278-292 | one merge between parts that share lists in any way: every part but the one merged into keeps its entries if and only if there was no list to append to, or it does not share that list, or nothing is new in the other |
| PdfSourceMap.SharedListGrows | aperag/docparser/chunking.py:252-263 | the input part's own metadata gets an entry of another part, through the copy made for the output |
| PageLists.ExtendChangesNothing | aperag/docparser/chunking.py:288-292 | a list stays as it is if and only if it has every entry of the other |
| Rechunker.Rechunker.MergePdfSourceMap | aperag/docparser/chunking.py:278-292 | on parts that refer to shared lists: the list taken over, or the one list extended in place for all that refer to it |
| PageListLaws.FoldPiecesHolds | aperag/docparser/chunking.py:247-263 | building an output part changes its own list only, which then holds what the lists of its pieces held before |
| PageListLaws.OutputTakesFirstList | aperag/docparser/chunking.py:252-287 | an output part refers to the list of its first piece that has one |
| PageListLaws.OwnIsHeld | aperag/docparser/chunking.py:247-292 | from when it is built, each output part lists all pages of its pieces |
| PageListLaws.PageListsExactly | aperag/docparser/chunking.py:210-214 | after all output parts are built, each lists exactly the pages that its pieces listed at the start if and only if nothing collected by one reaches the list of another that did not have it |
| PageListExample.PageLeaks | aperag/docparser/chunking.py:210-261 | two oversized parts in one group: a page of the second ends up on the first output part, which is text of the first part alone |
| Rechunker.Rechunker.SplitLargeParts | aperag/docparser/chunking.py:199-216 | oversized non-FAQ parts are replaced by fresh chunk parts, all others kept as objects |
| Rechunker.Rechunker.ChunkParts | aperag/docparser/chunking.py:210-214 | each chunk is a fresh part with the metadata of the whole and no token count |
| Rechunker.Rechunker.FillParts | aperag/docparser/chunking.py:218-240 | the packing loop of one group, sealing at the limit and after split parts |
| Rechunker.Rechunker.FillOne | aperag/docparser/chunking.py:223-234 | one round of it |
| Rechunker.Rechunker.EnterGroup | aperag/docparser/chunking.py:160-164 | the loop over the title stack |
| Rechunker.Rechunker.CanMergeGroup | aperag/docparser/chunking.py:166-184 | a group joins the last part exactly when level, FAQ and token rules all allow it, decided on cached counts |
| Rechunker.Rechunker.PackGroup | aperag/docparser/chunking.py:186-240 | one group is merged into the last part, or that is sealed and the group packed alone |
| Rechunker.Rechunker.PackTogether | aperag/docparser/chunking.py:186-190 | a group that may join does so whole, and an empty last part takes its level |
| Rechunker.Rechunker.PackAlone | aperag/docparser/chunking.py:199-240 | a group that does not fit is split and packed into parts of its own |
| Rechunker.Rechunker.RechunkGroups | aperag/docparser/chunking.py:152-245 | the loop over groups shows the packed runs, and every token count stays right |
| Rechunker.Rechunker.Rechunk | aperag/docparser/chunking.py:42-45 | the output parts are fresh and show exactly the specified runs; the input parts keep all but their token counts; the page lists end as folding all merges over them gives |
| MdBuilder.ToMdPart | aperag/docparser/mineru_common.py:34-50 | the markdown and the interval stamped in place on each part are those of the layout |
| MdLayout.LayoutIsGood | aperag/docparser/mineru_common.py:34-50 | parts without trailing whitespace lie on their intervals, in order, one blank line apart, up to the end |
| MdLayout.LayoutOfAny | aperag/docparser/mineru_common.py:34-50 | whatever white space the parts end with, the interval of each holds its text without it, in order and one blank line apart |
| TextLines.WhitespaceIsSpace | aperag/docparser/mineru_common.py:41 | white space is what Python's str.isspace has, by code point |
| MdLayout.AssetsAreLeftOut | aperag/docparser/mineru_common.py:37-39 | binary assets leave no trace in the markdown and its line count |
| TextLines.RStripIsTrimmed | aperag/docparser/mineru_common.py:40-43 | stripping takes away white space at the end and leaves none there |
| SourceMapLaws.SourceMapRoundTrip | aperag/docparser/chunking.py:252-276 | for every clean document and every output part without chunks, the lines of its merged interval, taken out of the markdown, are exactly its content if and only if its pieces are neighbours there; they are whenever no FAQ entry directly follows other content |
| SourceMapLaws.WanderingOutgrows | aperag/docparser/chunking.py:252-276 | pieces that go on or back, and never before the first, have a text longer than their interval unless they are neighbours |
| OrderLaws.RunsStartFirst | aperag/docparser/chunking.py:105-245 | repeated groups or not, every output part starts with the earliest of its pieces |
| OrderLaws.PiecesGoOnOrBack | aperag/docparser/chunking.py:105-245 | between any two pieces, whole parts or chunks, the output goes on to the next part of the document, stays, or jumps back |
| CoverLaws.IntervalHoldsSources | aperag/docparser/chunking.py:199-276 | for every clean document and every output part, with chunks or without: its pieces come from some neighbouring parts of the document, from each of them and no other, and the lines of its merged interval are exactly those parts, each once and whole |
| CoverLaws.WanderingCovers | aperag/docparser/chunking.py:265-276 | pieces that start with the earliest and skip no part have the interval from the first to the last part they come from |
| SourceMap.BuildAndRechunk | aperag/docparser/mineru_common.py:34-50 | on part objects, building the markdown and then chunking: each output part without chunks is located by its interval exactly when its pieces are neighbours |
| SourceMapLaws.RepeatedTextBreaksRoundTrip | aperag/docparser/chunking.py:252-276 | with a heading repeated before a FAQ entry the interval gives back less than the content |
| FlowGraph.TopologicalSort | aperag/flow/engine.py:169-207 | CycleError exactly for an empty flow or one with a directed cycle; otherwise a permutation of the nodes, sources before targets |
| FlowGraph.CountInDegrees | aperag/flow/engine.py:181-184 | the counts are the numbers of incoming edges, repeated edges counted |
| FlowGraph.ReadyNodes | aperag/flow/engine.py:186-187 | the queue starts with the nodes without predecessors, each once |
| FlowGraph.TakeOff | aperag/flow/engine.py:194-202 | taking a node off keeps the in-degrees those of the rest, and queues each newly ready node once |
| FlowGraph.NoSourceMeansCycle | aperag/flow/engine.py:204-205 | nodes that all wait for each other hold a cycle |
| FlowGraph.OrderedMeansNoCycle | aperag/flow/engine.py:204-207 | a graph that can be ordered has no cycle, self-loops included |
| FlowLevels.FindParallelGroups | aperag/flow/engine.py:209-242 | group i holds exactly the nodes into which the longest path has i edges; on a cyclic graph the rest is left out |
| FlowLevels.ReadyLevel | aperag/flow/engine.py:229-232 | a level is the unprocessed nodes whose predecessors are all processed |
| FlowLevels.TakeOffLevel | aperag/flow/engine.py:236-241 | the in-degrees after a whole level, whatever the order within it |
| FlowLevels.DepthExists | aperag/flow/engine.py:209-242 | in an ordered graph every node has a longest path |
| FlowLevels.GroupsPartition | aperag/flow/engine.py:209-242 | each node is in exactly one group |
| FlowLevels.GroupsRespectEdges | aperag/flow/engine.py:209-242 | predecessors are in strictly earlier groups |
| FlowLevels.FewestGroups | aperag/flow/engine.py:209-242 | no grouping with sources strictly earlier has fewer groups |
| FlowRun.ConsistentIsSequential | aperag/flow/engine.py:258-312 | outputs that explain each other through ancestors are those of running the nodes one at a time |
| FlowRun.SequentialIsConsistent | aperag/flow/engine.py:258-312 | and running one at a time makes such outputs |
| FlowRun.ParallelGroupsAreGood | aperag/flow/engine.py:209-242 | the groups found meet what the run relies on |
| FlowRunLaws.NextInv | aperag/flow/engine.py:387-413 | every step of every interleaving keeps the invariant on outputs, phases and levels |
| FlowRunLaws.RunsAreSequential | aperag/flow/engine.py:138-140 | whatever the interleaving, success ends with the outputs of the sequential run, and an abort means the sequential run fails too |
| FlowRunLaws.NoLevelAfterFailure | aperag/flow/engine.py:244-256 | after a failure siblings may finish, but no later level starts and the flow does not succeed |
| FlowRunLaws.RunEvents | aperag/flow/engine.py:387-422 | each node starts at most once, with all ancestors ended, and ends at most once after its start; in a successful run exactly once |
| FlowEngine.Engine.ExecuteFlow | aperag/flow/engine.py:101-167 | under any scheduler: Cycle exactly for an empty or cyclic flow, otherwise the outcome of every sequential order; on success there is an output for each node and no other, which is what its runner makes of the inputs bound from the outputs |
| FlowEngine.Engine.ExecuteNodeGroup | aperag/flow/engine.py:244-256 | a group ends with all its nodes stored, or with one failed |
| FlowEngine.ExecuteWithSystemOutputs | aperag/flow/engine.py:153-154 | in every sequential order the outputs are the data of all nodes, ordinary ones included, and the system outputs those of exactly the nodes that have one |
| LockProtocol.StepKeepsTokens | aperag/concurrent_control/redis_lock.py:136-164 | no value ever belongs to two instances |
| LockLaws.OwnershipIsSafe | aperag/concurrent_control/redis_lock.py:61-76 | with no timing assumption at most one instance owns the key, and no other instance's step changes it |
| LockLaws.RunKeepsHolders | aperag/concurrent_control/redis_lock.py:144-169 | a holder within its expiry time finds the key its own, whatever the others do |
| LockLaws.HolderInTimeOwns | aperag/concurrent_control/redis_lock.py:144-169 | who has the lock owns the key until its expiry time has passed since its last SET or renewal reached Redis, whatever the others do |
| LockLaws.MutualExclusion | aperag/concurrent_control/redis_lock.py:286-333 | if every instance in its section set or renewed without error less than its expiry time ago, no two are ever inside together |
| LockLaws.UnrenewedKeyIsFree | aperag/concurrent_control/redis_lock.py:154-159 | a key nobody sets or renews is free within the expiry time, and the next SET wins it |
| LockLaws.FreeKeyCanBeTaken | aperag/concurrent_control/redis_lock.py:144-169 | from every reachable world with a free key an idle instance can get inside |
| LockLaws.OverlapExactlyWhenFree | aperag/concurrent_control/redis_lock.py:144-169 | in every reachable world with an instance inside, a resting one can get in beside it, at once and by its own steps, if and only if the key is free |
| LockLaws.OverdueHolderCanBeJoined | aperag/concurrent_control/redis_lock.py:273-333 | which it is once the expiry time of the last SET or renewal has passed |
| LockLaws.LateHolderOverlaps | aperag/concurrent_control/redis_lock.py:273-333 | a run that leads to two instances inside together |
| RedisLock.RedisLock.Acquire | aperag/concurrent_control/redis_lock.py:119-192 | at most retry_times+1 attempts and retry_times sleeps, exactly as many without a timeout; with one it gives up early only if a reading of the clock shows it over, or after an attempt when there is no delay; on success the key holds the fresh value; the call performs protocol steps, a drawn value and then at most one SET an attempt, its reply read or lost, and gives up unless the last one won |
| RedisLock.RedisLock.Release | aperag/concurrent_control/redis_lock.py:194-230 | the key is deleted only while it holds this lock's value, and the local state is cleared in any case; with a lock held it is one release step, otherwise none |
| RedisLock.RedisLock.RenewOnce | aperag/concurrent_control/redis_lock.py:294-313 | renewing touches the key only while it holds the captured value; a lost lock is marked and the watchdog stops; it is one renewal step |
| RedisLock.RedisLock.Watchdog | aperag/concurrent_control/redis_lock.py:286-313 | over any number of intervals it performs one renewal step each and stops at the first failure; if it has not stopped, the last interval left the key alive for the whole expiry time with the unchanged lock value |
| RedisLock.RedisLock.WithRenewal | aperag/concurrent_control/redis_lock.py:315-333 | around the watchdog, cancelled at any point: afterwards the lock is not held, and its value is forgotten unless it was lost; it performs acquiring, one section and a release unless lost; in the section exactly one renewal an interval and one more if it ends with one under way, unless the last one failed or found the lock lost; in a punctual run it never loses the lock, and if just this client renews and leaves within its expiry time it does not lose it either and owns the key up to the end of the section |
| RedisLock.RedisLock.RunSection | aperag/concurrent_control/redis_lock.py:286-325 | the watchdog performs one renewal an interval until the section ends, or stops at the first that failed or found the lock lost |
| RedisLock.Server.Elapse | aperag/concurrent_control/redis_lock.py:144-159 | any protocol steps of the other clients between two requests leave this client as it was |
| RedisLock.PunctualHolder | aperag/concurrent_control/redis_lock.py:286-333 | in a punctual run a client in its section still has the lock |
| MdTokens.Read | aperag/docparser/parse_md.py:128-141 | converting a token moves the cursor on, within the stream |
| MdTokens.ReadUntil | aperag/docparser/parse_md.py:154-166 | converting to a closing token never moves back or past the end |
| MdBlocks.ReadsBlock | aperag/docparser/parse_md.py:128-166 | on a flattened block the cursor consumes exactly the block, restores the context and makes the parts of the tree |
| MdBlocks.ReadsBlocks | aperag/docparser/parse_md.py:154-166 | and likewise up to the closing token of what is around |
| MdBlocks.ConverterIsStructural | aperag/docparser/parse_md.py:143-152 | on the flattening of any sequence of block trees the converter equals structural recursion with no state |
| MdBlocks.FinishAlike | aperag/docparser/parse_md.py:393-471 | no handler looks at a nesting stamp, so a table's own nesting level never shows |
| MdTextLaws.TextIsKept | aperag/docparser/parse_md.py:143-152 | on the tokens of any tidy trees the parts other than images, with their heading levels and code languages, are those of reading the tree from outside: every text once and in order, each line behind the marks that the quotes and list items around it hand down, tables with their escaped cells |
| MdTextLaws.TextIsConserved | aperag/docparser/parse_md.py:199-471 | as many texts as the tree has, in its order, and each line of a part ends with the line of its text; code is as it is |
| MdTextLaws.ParagraphIsItsText | aperag/docparser/parse_md.py:278-307 | a paragraph of one inline token is one text part with that token's content |
| MdDetailLaws.CodeIsFenced | aperag/docparser/parse_md.py:222-232 | a code part is the language and the trimmed code between two fences of the fewest backticks, three to thirteen, that the code does not hold |
| MdDetailLaws.EscapeJoins | aperag/docparser/parse_md.py:431-436 | escaping works character by character, on bars, line breaks and carriage returns only |
| MdDetailLaws.DecimalHasValue | aperag/docparser/parse_md.py:327-330 | an item's number is written in digits that have its value |
| MdDetailLaws.FoundAtEveryOtherDepth | aperag/docparser/parse_md.py:172-192 | of the children of a token the images at every other depth are found, those below a child before it |
| MdDetailLaws.UnknownTokenIsText | aperag/docparser/parse_md.py:135-141 | a token that no handler knows becomes a text part if it has a content, and nothing otherwise |
| MdBlockLaws.ContextIsRestored | aperag/docparser/parse_md.py:80-118 | on any token stream, well nested or not, nesting and pause are put back |
| MdBlockLaws.IndentMarksEveryLine | aperag/docparser/parse_md.py:206-218 | quoting and indenting mark every line and keep the number of lines |
| MdBlockLaws.FenceIsNotInCode | aperag/docparser/parse_md.py:222-232 | the fence occurs in the code if and only if thirteen backticks do, the most that are tried |
| MdBlockLaws.RowIsOneLine | aperag/docparser/parse_md.py:431-449 | a table row is one line whatever its cells hold |
| MdBlockLaws.KthItemIsNumberedK | aperag/docparser/parse_md.py:309-345 | in every ordered list at any depth the k-th item's text starts with k and its marker |
| MdBlockLaws.NestingCountsListsAndQuotes | aperag/docparser/parse_md.py:199-408 | the parts that are no images correspond one to one, in order, to the tokens that give a part its stamp, and part k carries the lines of token k and the number of lists and quotes around it |
| MdBlockLaws.ImagesComeOutOnce | aperag/docparser/parse_md.py:168-193 | each image comes out exactly once in document order, those in tables after the outermost table, and those in headings not at all |
| MdBlockLaws.TokensAreSearchedOnce | aperag/docparser/parse_md.py:168-193 | on any token stream no token is searched for images twice, so the mark on extracted images never decides anything |
| PartConverter.Convert | aperag/docparser/parse_md.py:128-141 | dispatch, and the fallback for unknown tokens |
| PartConverter.ConvertAll | aperag/docparser/parse_md.py:143-152 | the cursor loop; on any flattened trees it gives the parts of the trees |
| PartConverter.ConvertUntilClose | aperag/docparser/parse_md.py:154-166 | the loop to the closing token |
| PartConverter.ExtractImageParts | aperag/docparser/parse_md.py:168-193 | the image parts of a stretch of tokens, none while paused |
| PartConverter.ExtractFromChildren | aperag/docparser/parse_md.py:172-192 | the images among the children of a token, those found below a child before the child itself |
| PartConverter.ConvertBlockquoteOpen | aperag/docparser/parse_md.py:199-220 | deeper nesting inside, and the marker before every line of its texts |
| PartConverter.ToCodeContent | aperag/docparser/parse_md.py:222-232 | the fence grows while the code holds it, ten times at most |
| PartConverter.ConvertHeadingOpen | aperag/docparser/parse_md.py:256-276 | one title part from the joined texts, the level from the markup |
| PartConverter.ConvertParagraphOpen | aperag/docparser/parse_md.py:303-307 | the parts inside |
| PartConverter.ConvertOrderedListOpen | aperag/docparser/parse_md.py:309-314 | numbering starts at 1 inside and goes on outside where it was |
| PartConverter.ConvertBulletListOpen | aperag/docparser/parse_md.py:316-321 | deeper nesting inside |
| PartConverter.ConvertListItemOpen | aperag/docparser/parse_md.py:323-378 | the marker on the first text or on a part of its own, the rest moved in, one number used up |
| PartConverter.ConvertTableOpen | aperag/docparser/parse_md.py:393-408 | one text part stamped with the nesting outside, then the images held back inside |
| PartConverter.ConvertTheadOpen | aperag/docparser/parse_md.py:410-422 | the head row and a rule of as many columns |
| PartConverter.ConvertTbodyOpen | aperag/docparser/parse_md.py:424-429 | the rows, line by line |
| PartConverter.ConvertTrOpen | aperag/docparser/parse_md.py:438-451 | one row with its escaped cells and their count |
| PartConverter.ConvertThOpen | aperag/docparser/parse_md.py:453-461 | one cell |
| PartConverter.ConvertTdOpen | aperag/docparser/parse_md.py:463-471 | one cell |
| LocalStore.NameRoundTrip | aperag/objectstore/local.py:122-156 | the name of a normalised path resolves to that path |
| LocalStore.NamesAreDistinct | aperag/objectstore/local.py:122-156 | different normalised paths have different names |
| StoreLaws.ResolveMeans | aperag/objectstore/local.py:122-156 | a name, taken apart at its slashes, stands for its parts that are neither empty nor a dot, and is refused exactly if there are none or one is ".." |
| StoreLaws.MatchesMeans | aperag/objectstore/local.py:296 | a prefix matches a path exactly when its characters, without slashes in front and with backslashes read as slashes, begin the path's name |
| StoreLaws.OperationOn | aperag/objectstore/local.py:158-344 | after an operation a path holds what was put there, or what it held unless that was deleted by name or by a prefix other than slashes |
| StoreLaws.LastTouchDecides | aperag/objectstore/local.py:158-344 | over any operations a path holds what the last one that touched it wrote, and nothing if that one deleted it |
| LocalStore.DirsFollowFiles | aperag/objectstore/local.py:246-267 | in a tidy tree the directories are exactly the root and those with a file beneath them |
| LocalStore.Local.Get | aperag/objectstore/local.py:172-186 | the bytes the flat map holds, nothing for a bad or unknown name |
| LocalStore.Local.CleanupEmptyDirs | aperag/objectstore/local.py:246-267 | going up from a directory leaves no empty directory that only it could have left |
| LocalStore.Local.MakeParents | aperag/objectstore/local.py:160-161 | all parents are made, or nothing changes because a stored object is in the way |
| LocalStore.Local.Put | aperag/objectstore/local.py:158-170 | the flat map is updated and the tree tidy; it fails exactly for a bad name or a stored path above or below |
| LocalStore.Local.Delete | aperag/objectstore/local.py:269-292 | the flat map without the path, the tree tidy |
| LocalStore.Local.DeleteObjectsByPrefix | aperag/objectstore/local.py:294-344 | exactly the matching objects go, in whatever order they are walked; an empty prefix deletes nothing; the tree is tidy |
| LocalStore.Local.ListObjectsByPrefix | aperag/objectstore/local.py:346-361 | exactly the matching objects, each once |
| LocalStore.Local.StreamRange | aperag/objectstore/local.py:204-235 | the window is data[start..end], both ends included and the end cut to the file, and its length is the reported one |
| LocalStore.RunOperations | aperag/objectstore/local.py:158-344 | over every sequence of operations the store agrees with the flat map and every directory but the root has a file beneath it |
| RangedStream.RangedFileStream.constructor | aperag/objectstore/local.py:40-45 | the cursor starts at the first byte of the range |
| RangedStream.RangedFileStream.Read | aperag/objectstore/local.py:47-58 | the next bytes of the window, at most as many as asked for |
| RangedStream.RangedFileStream.Seek | aperag/objectstore/local.py:60-75 | the cursor is clamped to the window; an unknown origin is refused |
| RangedStream.RangedFileStream.Tell | aperag/objectstore/local.py:77-81 | the cursor |
| RangedStream.RunStream | aperag/objectstore/local.py:47-81 | over every sequence of operations the stream is a clamped cursor over its slice |
| RangedStream.ReadsAreConsecutive | aperag/objectstore/local.py:47-58 | reads of any sizes give consecutive bytes, none lost or repeated |
| RangedStream.Drain | aperag/objectstore/local.py:412-418 | reading chunk by chunk, whatever the chunk size, gives exactly the rest of the window |

## Left out

- SourceMapLaws.SourceMapRoundTrip: says nothing of output parts with chunks, whose text is only part of what their interval holds; `CoverLaws.IntervalHoldsSources` says what that is. No exact condition on the input alone is stated: whether both copies of a text meet in one output part depends on the token counts of everything before them.
- FaqLaws.FaqsIsolatedAtEverySize: asks that a lone heading right before a FAQ entry is not itself marked as a chunk, because such a mark keeps its neighbours away when its group is packed alone. `HeadingLaws.FaqIsolation` has no such condition.
- Rechunker.Rechunker.Rechunk: asks that a token count already cached on an input part is that of its content, as the source relies on. Parts refer to page lists by number, and the lists are a field beside them; `PdfSourceMap` has them as objects.
- PartConverter.Convert: parts are values, not objects; each part has one owner while it is rewritten, so nothing observes the difference. Metadata is a record of the keys the converter reads or writes.
- PartConverter.ExtractImageParts: the mark on an extracted image is not modelled; `MdBlockLaws.TokensAreSearchedOnce` is why.
- LocalStore.Local.DeleteObjectsByPrefix: directories are cleaned up in any order, of which longest path first is one.
- FlowEngine.Engine.ExecuteFlow: expression resolution, template rendering, input validation and the global variables set before the first node are one function of the outputs; event payloads are left out. Edge endpoints are assumed to be nodes.
- MdTextLaws.TextIsKept: headings and cells hold inline tokens and tables a grid of rows, as the parser makes them; the other laws of the converter hold for any trees.
- RedisLock.RedisLock.Acquire: one instance is one client; two coroutines sharing an instance are not modelled. Values drawn for a call are new. A reply that arrives does so before the others act again.
- Cancellation of a flow's tasks from outside.
- OS errors, symbolic links, concurrent writers and path-traversal checks of the object store; the S3 store and the asynchronous wrappers.
- Parsing markdown into tokens, data URIs, and the other document parsers.
- Real tokenizers, regular expressions, hashing and base64.
- `create_lock`, `get_or_create_lock` and `ThreadingLock`; Celery tasks and index reconciliation; HTTP, LLM, embedding and search clients; configuration and the web front end.
