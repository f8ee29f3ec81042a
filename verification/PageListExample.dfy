/** A document of two parts in which one page ends up on the list of an output part that
    holds nothing of it. */
module PageListExample {
  import opened Common
  import opened Splitter
  import opened Chunking
  import opened PageLists
  import opened PageListLaws
  import opened CutLaws

  /** One token a character. */
  function Characters(s: string): nat {
    |s|
  }

  const CFG := Config(Characters, 4, 0)
  const LISTS: Lists := map[0 := ["x"], 1 := ["y"]]

  function Plain(content: string, pages: ListId): PartValue {
    PartValue(content, None, 0, false, "", false, None, Some(pages), None)
  }

  // ----- Splitting -----

  lemma {:induction false} AbsentSeparator(s: string, sep: string, i: nat)
    requires sep != "" && sep[0] !in s && i <= |s|
    ensures IndexOf(s, sep, i) == -1
    decreases |s| - i
  {
    if i + |sep| <= |s| {
      assert s[i..i + |sep|][0] == s[i] && s[i] in s;
      AbsentSeparator(s, sep, i + 1);
    }
  }

  /** No separator starts with one of these letters, and only those of the last level with
      a blank. */
  lemma LettersUncut(s: string, level: nat)
    requires level < LEVELS && |TABLE| == LEVELS
    requires forall c <- s :: c == 'a' || c == 'c' || (c == ' ' && level < 10)
    ensures Absent(s, TABLE[level])
  {
    SeparatorsAreTable(level);
    StartsElsewhere(level);
    forall k, i | 0 <= k < |TABLE[level]|
      ensures !OccursAt(s, TABLE[level][k], i)
    {
      assert TABLE[level][k] in TABLE[level];
      if OccursAt(s, TABLE[level][k], i) {
        StartOccurs(s, TABLE[level][k], i);
      }
    }
  }

  lemma StartOccurs(s: string, sep: string, i: nat)
    requires sep != "" && OccursAt(s, sep, i)
    ensures sep[0] in s
  {
    assert s[i..i + |sep|][0] == s[i];
  }

  lemma StartsElsewhere(level: nat)
    requires level < LEVELS
    ensures forall sep <- Separators(level) ::
              sep != "" && sep[0] != 'a' && sep[0] != 'c' && (level < 10 ==> sep[0] != ' ')
  {
  }

  lemma {:induction false} Short(s: string, level: nat)
    requires 0 < |s| <= 4
    ensures Split(Characters, s, 4, 0, level) == [s]
  {
    SplitUnfolds(Characters, s, 4, 0, level);
  }

  lemma LettersSplit()
    ensures Split(Characters, "aaaaaa", 4, 0, 0) == ["aaa", "aaa"]
  {
    hide Split, Separators, Absent;
    var s := "aaaaaa";
    assert s[..3] == "aaa" && s[3..] == "aaa" && RightHalf(Characters, s, 0) == "" + s[3..];
    SplitUnfolds(Characters, s, 4, 0, LEVELS);
    Short("aaa", LEVELS + 1);
    assert Merge(Characters, "", ["aaa", "aaa"], 4) == ["aaa", "aaa"] by { TwoStay(Characters, "aaa", "aaa", 4); }
    forall level | 0 <= level < LEVELS ensures |TABLE| == LEVELS && Absent(s, TABLE[level]) {
      LettersUncut(s, level);
    }
    SplitBelow(Characters, s, 4, 0, 0, LEVELS, ["aaa", "aaa"]);
  }

  lemma BlankSplit()
    ensures Split(Characters, " cccc", 4, 0, 0) == [" ", "cccc"]
  {
    hide Split, Separators, Absent;
    var s := " cccc";
    BlankLevel();
    SplitUnfolds(Characters, s, 4, 0, 10);
    TwoToSplit(" ", "cccc");
    TwoStay(Characters, " ", "cccc", 4);
    forall level | 0 <= level < 10 ensures |TABLE| == LEVELS && Absent(s, TABLE[level]) {
      LettersUncut(s, level);
    }
    SplitBelow(Characters, s, 4, 0, 0, 10, [" ", "cccc"]);
  }

  lemma BlankLevel()
    ensures Pieces(" cccc", 10) == [" ", "cccc"]
  {
    hide CutAll;
    var s := " cccc";
    CutAtBlank();
    assert [" ", "cccc"][1..] == ["cccc"] && ["cccc"][1..] == [];
    CutNothing([" ", "cccc"], "\t");
    assert [" ", "\t"][1..] == ["\t"] && ["\t"][1..] == [];
    assert CutLevel([" ", "cccc"], ["\t"]) == CutLevel([" ", "cccc"], []);
    assert CutLevel([s], [" ", "\t"]) == CutLevel([" ", "cccc"], ["\t"]);
  }

  lemma CutAtBlank()
    ensures CutAll([" cccc"], " ") == [" ", "cccc"]
  {
    hide SplitOn, IndexOf;
    var s := " cccc";
    BlankFirst();
    assert ["", "cccc"][1..] == ["cccc"] && "" + " " == " ";
    assert KeepSeparators(["", "cccc"], " ") == [" "] + KeepSeparators(["cccc"], " ") == [" ", "cccc"];
    assert [s][1..] == [];
    assert CutAll([s], " ") == [" ", "cccc"] + CutAll([], " ");
  }

  lemma BlankFirst()
    ensures SplitOn(" cccc", " ") == ["", "cccc"]
  {
    hide SplitOn;
    var s := " cccc";
    assert s[..0] == "" && s[1..] == "cccc" && s[0..1] == " ";
    SplitOnUnfolds(s, " ");
    SplitOnUnfolds("cccc", " ");
    AbsentSeparator("cccc", " ", 0);
  }

  lemma {:induction false} CutNothing(chunks: seq<string>, sep: string)
    requires sep != "" && forall s <- chunks :: sep[0] !in s
    ensures CutAll(chunks, sep) == chunks
  {
    if chunks != [] {
      AbsentSeparator(chunks[0], sep, 0);
      CutNothing(chunks[1..], sep);
    }
  }

  lemma TwoToSplit(a: string, b: string)
    requires 0 < |a| <= 4 && 0 < |b| <= 4
    ensures SplitAll(Characters, [a, b], 4, 0, 11) == [a, b]
  {
    hide Split;
    SplitAllStep(Characters, [a, b], 0, 4, 0, 11);
    assert [a, b][0..] == [a, b] && [a, b][1..] == [b];
    OneToSplit(Characters, b, 4, 0, 11);
    Short(a, 11);
    Short(b, 11);
  }

  // ----- Packing -----

  function Chunk(content: string, pages: ListId): Piece {
    Piece(Plain(content, pages).(splitted := true), 0)
  }

  lemma Expanded(p: PartValue, a: string, b: string)
    requires !p.faq && |p.content| > 4 && p.level.None? && Split(Characters, p.content, 4, 0, 0) == [a, b]
    ensures Expand(CFG, p) == [p.(content := a, splitted := true), p.(content := b, splitted := true)]
  {
    hide Split;
  }

  /** The runs: the second chunk of the first part takes the first of the second part. */
  lemma TwoPartsPacked()
    ensures Rechunk(CFG, [Plain("aaaaaa", 0), Plain(" cccc", 1)])
         == [Run([Chunk("aaa", 0)], []), Run([Chunk("aaa", 0), Chunk(" ", 1)], []), Run([Chunk("cccc", 1)], [])]
  {
    hide Split, Expand;
    var p, r := Plain("aaaaaa", 0), Plain(" cccc", 1);
    var g := GroupValue(0, "", [p, r]);
    OneGroup(p, r);
    LettersSplit();
    BlankSplit();
    Expanded(p, "aaa", "aaa");
    Expanded(r, " ", "cccc");
    assert [p, r][..1] == [p] && [p][..0] == [];
    assert ExpandAll(CFG, [p]) == [] + Expand(CFG, p);
    assert ExpandAll(CFG, [p, r]) == Expand(CFG, p) + Expand(CFG, r);
    var pieces := [Chunk("aaa", 0), Chunk("aaa", 0), Chunk(" ", 1), Chunk("cccc", 1)];
    assert Tag(ExpandAll(CFG, [p, r]), 0) == pieces;
    FourFilled();
    PackedAlone(g, pieces);
  }

  lemma OneGroup(p: PartValue, r: PartValue)
    requires p == Plain("aaaaaa", 0) && r == Plain(" cccc", 1)
    ensures Groups([p, r]) == [GroupValue(0, "", [p, r])]
  {
    assert [p, r][..1] == [p] && [p][..0] == [];
    var first := AddPart(Grouping([], false), p);
    var own, g := GroupValue(0, "", [p]), GroupValue(0, "", [p, r]);
    assert first == Grouping([own], true);
    assert [own][..0] == [] && [p] + [r] == [p, r];
    assert GroupParts([p]) == first;
    assert AddPart(first, r) == Grouping([g], true);
    assert GroupParts([p, r]) == AddPart(first, r);
    assert !PureTitle(g);
    assert MergeTitles([g], 1) == [];
    assert MergeTitles([g], 0) == [g] + MergeTitles([g], 1);
  }

  lemma FourFilled()
    ensures var f := FillAll(CFG, [Chunk("aaa", 0), Chunk("aaa", 0), Chunk(" ", 1), Chunk("cccc", 1)], []);
            && f.done == [Run([Chunk("aaa", 0)], []), Run([Chunk("aaa", 0), Chunk(" ", 1)], [])]
            && f.open == Some(Run([Chunk("cccc", 1)], []))
  {
    var a, b, c := Chunk("aaa", 0), Chunk(" ", 1), Chunk("cccc", 1);
    assert [a, a, b, c][..3] == [a, a, b] && [a, a, b][..2] == [a, a] && [a, a][..1] == [a] && [a][..0] == [];
    var f1 := Fill(CFG, Filling([], None, 0, false), a, []);
    assert f1 == Filling([], Some(Run([a], [])), 3, true);
    var f2 := Fill(CFG, f1, a, []);
    assert f2 == Filling([Run([a], [])], Some(Run([a], [])), 3, true);
    var f3 := Fill(CFG, f2, b, []);
    assert [a] + [b] == [a, b];
    assert f3 == Filling([Run([a], [])], Some(Run([a, b], [])), 4, true);
    var f4 := Fill(CFG, f3, c, []);
    assert f4.done == [Run([a], [])] + [Run([a, b], [])];
    assert FillAll(CFG, [a], []) == f1 && FillAll(CFG, [a, a], []) == f2;
    assert FillAll(CFG, [a, a, b], []) == f3 && FillAll(CFG, [a, a, b, c], []) == f4;
  }

  lemma {:induction false} PackedAlone(g: GroupValue, pieces: seq<Piece>)
    requires g == GroupValue(0, "", [Plain("aaaaaa", 0), Plain(" cccc", 1)])
    requires Tag(ExpandAll(CFG, g.items), 0) == pieces
    ensures var f := FillAll(CFG, pieces, []); PackedRuns(CFG, [g]) == Sealed(f.done, f.open)
  {
    hide ExpandAll, FillAll, Tag;
    var p, r := Plain("aaaaaa", 0), Plain(" cccc", 1);
    assert [p, r][..1] == [p] && [p][..0] == [];
    assert SumTokens(CFG, [p]) == 6 && SumTokens(CFG, [p, r]) == 11;
    var st := Packing([], [], None, None);
    assert [g][..0] == [];
    assert PackAll(CFG, [g]) == Pack(CFG, st, g, 0);
    assert !CanMerge(CFG, st, g);
    assert Titles(Enter([], g)) == [];
    var f := FillAll(CFG, pieces, []);
    assert [] + f.done == f.done;
  }

  // ----- The leak -----

  /** The first output part is text of the first part only, whose list had "x"; in the end
      its list has "y" too. */
  lemma PageLeaks()
    ensures var runs := Rechunk(CFG, [Plain("aaaaaa", 0), Plain(" cccc", 1)]);
            && |runs| == 3 && RunText(runs[0].pieces) == "aaa" && RunList(runs, 0) == Some(0)
            && Own(LISTS, runs[0].pieces) == {"x"}
            && Entries(FoldRuns(LISTS, runs), RunList(runs, 0)) == ["x", "y"]
            && !Exact(LISTS, runs, 0)
  {
    TwoPartsPacked();
    hide Rechunk, Exact;
    var a, b, c := Chunk("aaa", 0), Chunk(" ", 1), Chunk("cccc", 1);
    var runs := [Run([a], []), Run([a, b], []), Run([c], [])];
    OneChunk(a, LISTS);
    OneChunk(c, LISTS[0 := ["x", "y"]]);
    TwoChunks(a, b);
    assert runs[..2] == [Run([a], []), Run([a, b], [])] && runs[..2][..1] == [Run([a], [])];
    assert runs[..2][..1][..0] == [];
    assert FoldRuns(LISTS, runs[..2][..1]) == LISTS;
    assert FoldRuns(LISTS, runs[..2]) == LISTS[0 := ["x", "y"]];
    assert FoldRuns(LISTS, runs) == LISTS[0 := ["x", "y"]];
    NotExact(runs);
  }

  lemma {:induction false} NotExact(runs: seq<Run>)
    requires |runs| == 3 && RunList(runs, 0) == Some(0) && Own(LISTS, runs[0].pieces) == {"x"}
    requires Entries(FoldRuns(LISTS, runs), Some(0)) == ["x", "y"]
    ensures !Exact(LISTS, runs, 0)
  {
    hide FoldRuns, Own, RunPages;
    assert "y" in Held(FoldRuns(LISTS, runs), Some(0)) by { assert ["x", "y"][1] == "y"; }
  }

  lemma {:induction false} OneChunk(a: Piece, lists: Lists)
    requires a.part.pages.Some?
    ensures RunPages([a]) == a.part.pages && FoldPieces(lists, [a]) == lists && RunText([a]) == a.part.content
    ensures Own(lists, [a]) == Held(lists, a.part.pages)
    ensures Held(LISTS, Some(0)) == {"x"}
  {
    assert [a][..0] == [];
    assert {} + Held(lists, a.part.pages) == Held(lists, a.part.pages);
  }

  lemma TwoChunks(a: Piece, b: Piece)
    requires a.part.pages == Some(0) && b.part.pages == Some(1)
    ensures FoldPieces(LISTS, [a, b]) == LISTS[0 := ["x", "y"]]
  {
    assert [a, b][..1] == [a];
    OneChunk(a, LISTS);
    assert ["y"][1..] == [] && ["x"] + ["y"] == ["x", "y"];
    assert Extend(["x"], ["y"]) == Extend(["x", "y"], []);
  }
}
