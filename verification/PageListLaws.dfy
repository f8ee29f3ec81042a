/** What sharing does to page lists: every output part's list has the entries of all its
    pieces, and when exactly it has no others. */
module PageListLaws {
  import opened Common
  import opened Chunking
  import opened PageLists

  function Elements(s: seq<Entry>): set<Entry> {
    set x | x in s
  }

  /** The entries of a list. */
  function Held(lists: Lists, id: Option<ListId>): set<Entry> {
    Elements(Entries(lists, id))
  }

  /** The entries that the lists of the pieces have. */
  function Own(lists: Lists, pieces: seq<Piece>): set<Entry> {
    if pieces == [] then {} else Own(lists, pieces[..|pieces| - 1]) + Held(lists, Last(pieces).part.pages)
  }

  predicate HasList(pieces: seq<Piece>, id: Option<ListId>) {
    exists i :: 0 <= i < |pieces| && pieces[i].part.pages == id
  }

  // ----- One output part -----

  lemma MergedHolds(lists: Lists, dest: Option<ListId>, src: Option<ListId>, id: Option<ListId>)
    ensures Held(Merged(lists, dest, src), id)
         == Held(lists, id) + if dest.Some? && id == dest then Held(lists, src) else {}
  {
    hide Extend;
    ExtendLosesNothing(Entries(lists, dest), Entries(lists, src));
  }

  lemma {:induction false} OwnHasAll(lists: Lists, pieces: seq<Piece>, id: Option<ListId>)
    requires HasList(pieces, id)
    ensures Held(lists, id) <= Own(lists, pieces)
  {
    hide Held;
    var i :| 0 <= i < |pieces| && pieces[i].part.pages == id;
    if i < |pieces| - 1 {
      assert pieces[..|pieces| - 1][i].part.pages == id;
      OwnHasAll(lists, pieces[..|pieces| - 1], id);
    }
  }

  lemma {:induction false} OwnComesFromLists(lists: Lists, pieces: seq<Piece>, x: Entry)
    requires x in Own(lists, pieces)
    ensures exists id :: HasList(pieces, id) && x in Held(lists, id)
  {
    hide Held, HasList;
    var init, last := pieces[..|pieces| - 1], Last(pieces);
    assert pieces == init + [last];
    if x in Own(lists, init) {
      OwnComesFromLists(lists, init, x);
      var id :| HasList(init, id) && x in Held(lists, id);
      HasListMore(init, last, id);
    } else {
      LastHasList(pieces);
    }
  }

  lemma HasListMore(init: seq<Piece>, last: Piece, id: Option<ListId>)
    requires HasList(init, id)
    ensures HasList(init + [last], id)
  {
    var i :| 0 <= i < |init| && init[i].part.pages == id;
    assert (init + [last])[i].part.pages == id;
  }

  lemma LastHasList(pieces: seq<Piece>)
    requires pieces != []
    ensures HasList(pieces, Last(pieces).part.pages)
  {
    assert pieces[|pieces| - 1] == Last(pieces);
  }

  lemma {:induction false} RunHasItsList(pieces: seq<Piece>)
    requires RunPages(pieces).Some?
    ensures HasList(pieces, RunPages(pieces))
  {
    hide HasList;
    var init, last := pieces[..|pieces| - 1], Last(pieces);
    assert pieces == init + [last];
    if RunPages(init).Some? {
      RunHasItsList(init);
      HasListMore(init, last, RunPages(init));
    } else {
      LastHasList(pieces);
    }
  }

  lemma {:induction false} NoListNoEntries(lists: Lists, pieces: seq<Piece>)
    requires RunPages(pieces).None?
    ensures FoldPieces(lists, pieces) == lists && Own(lists, pieces) == {}
  {
    if pieces != [] {
      NoListNoEntries(lists, pieces[..|pieces| - 1]);
    }
  }

  /** Building an output part changes its own list only, which then has what the lists of
      its pieces had. */
  lemma {:induction false} FoldPiecesHolds(lists: Lists, pieces: seq<Piece>, id: Option<ListId>)
    ensures Held(FoldPieces(lists, pieces), id)
         == if RunPages(pieces).Some? && id == RunPages(pieces) then Own(lists, pieces) else Held(lists, id)
  {
    hide Held, Merged, HasList;
    if pieces != [] {
      var init, src := pieces[..|pieces| - 1], Last(pieces).part.pages;
      var dest, before := RunPages(init), FoldPieces(lists, init);
      FoldPiecesHolds(lists, init, id);
      FoldPiecesHolds(lists, init, src);
      MergedHolds(before, dest, src, id);
      if dest.None? {
        NoListNoEntries(lists, init);
      } else {
        RunHasItsList(init);
        OwnHasAll(lists, init, dest);
      }
    }
  }

  // ----- All output parts -----

  /** The page lists after the first n output parts. */
  function After(lists: Lists, runs: seq<Run>, n: nat): Lists
    requires n <= |runs|
  {
    FoldRuns(lists, runs[..n])
  }

  function RunList(runs: seq<Run>, k: nat): Option<ListId>
    requires k < |runs|
  {
    RunPages(runs[k].pieces)
  }

  lemma AfterNext(lists: Lists, runs: seq<Run>, n: nat, id: Option<ListId>)
    requires n < |runs|
    ensures Held(After(lists, runs, n + 1), id)
         == if RunList(runs, n).Some? && id == RunList(runs, n) then Own(After(lists, runs, n), runs[n].pieces)
            else Held(After(lists, runs, n), id)
  {
    hide Held, FoldPieces, Own, RunPages;
    assert runs[..n + 1][..n] == runs[..n];
    FoldPiecesHolds(After(lists, runs, n), runs[n].pieces, id);
  }

  lemma {:induction false} ListsGrow(lists: Lists, runs: seq<Run>, n: nat, m: nat, id: Option<ListId>)
    requires n <= m <= |runs|
    ensures Held(After(lists, runs, n), id) <= Held(After(lists, runs, m), id)
    decreases m
  {
    hide Held, After, Own, HasList, RunPages;
    if n < m {
      ListsGrow(lists, runs, n, m - 1, id);
      AfterNext(lists, runs, m - 1, id);
      if RunList(runs, m - 1).Some? {
        RunHasItsList(runs[m - 1].pieces);
        OwnHasAll(After(lists, runs, m - 1), runs[m - 1].pieces, RunList(runs, m - 1));
      }
    }
  }

  lemma {:induction false} OwnGrows(a: Lists, b: Lists, pieces: seq<Piece>)
    requires forall id :: Held(a, id) <= Held(b, id)
    ensures Own(a, pieces) <= Own(b, pieces)
  {
    hide Held;
    if pieces != [] {
      OwnGrows(a, b, pieces[..|pieces| - 1]);
      assert Held(a, Last(pieces).part.pages) <= Held(b, Last(pieces).part.pages);
    }
  }

  /** Once output part k is built, its list has all entries of its pieces. */
  lemma {:induction false} OwnIsHeld(lists: Lists, runs: seq<Run>, k: nat, m: nat)
    requires k < m <= |runs|
    ensures Own(lists, runs[k].pieces) <= Held(After(lists, runs, m), RunList(runs, k))
  {
    hide Held, After, Own, RunPages;
    if RunList(runs, k).None? {
      NoListNoEntries(lists, runs[k].pieces);
    } else {
      NothingBuilt(lists, runs);
      forall id
        ensures Held(lists, id) <= Held(After(lists, runs, k), id)
      {
        ListsGrow(lists, runs, 0, k, id);
      }
      OwnGrows(lists, After(lists, runs, k), runs[k].pieces);
      AfterNext(lists, runs, k, RunList(runs, k));
      ListsGrow(lists, runs, k + 1, m, RunList(runs, k));
    }
  }

  lemma NothingBuilt(lists: Lists, runs: seq<Run>)
    ensures After(lists, runs, 0) == lists
  {
  }

  /** The list of output part k has the entries of its pieces and no others. */
  ghost predicate Exact(lists: Lists, runs: seq<Run>, k: nat)
    requires k < |runs|
  {
    Held(FoldRuns(lists, runs), RunList(runs, k)) == Own(lists, runs[k].pieces)
  }

  /** What output part j collects reaches the list of output part k: they share the list, or
      k is built later from a piece that refers to it. */
  ghost predicate Reaches(runs: seq<Run>, j: nat, k: nat)
    requires j < |runs| && k < |runs|
  {
    && RunList(runs, j).Some?
    && (RunList(runs, j) == RunList(runs, k) || (j < k && HasList(runs[k].pieces, RunList(runs, j))))
  }

  /** Where something reaches, it is there already. */
  ghost predicate NoLeak(lists: Lists, runs: seq<Run>) {
    forall j, k :: 0 <= j < |runs| && 0 <= k < |runs| && Reaches(runs, j, k) ==>
      Own(lists, runs[j].pieces) <= Own(lists, runs[k].pieces)
  }

  ghost predicate AllExact(lists: Lists, runs: seq<Run>) {
    forall k :: 0 <= k < |runs| ==> Exact(lists, runs, k)
  }

  /** Without leaks, after n output parts a list has what any of them that owns it collected,
      or is as it was. */
  ghost predicate Settled(lists: Lists, runs: seq<Run>, n: nat, id: Option<ListId>)
    requires n <= |runs|
  {
    && (forall j :: 0 <= j < n && id.Some? && RunList(runs, j) == id ==>
          Held(After(lists, runs, n), id) == Own(lists, runs[j].pieces))
    && ((forall j :: 0 <= j < n ==> RunList(runs, j) != id) ==> Held(After(lists, runs, n), id) == Held(lists, id))
  }

  lemma {:induction false} NoLeakSettles(lists: Lists, runs: seq<Run>, n: nat, id: Option<ListId>)
    requires n <= |runs| && NoLeak(lists, runs)
    ensures Settled(lists, runs, n, id)
    decreases n, 0
  {
    hide Held, After, Own, RunPages, HasList, Reaches;
    if n == 0 {
      NothingBuilt(lists, runs);
    } else {
      var list := RunList(runs, n - 1);
      NoLeakSettles(lists, runs, n - 1, id);
      AfterNext(lists, runs, n - 1, id);
      if list.Some? && id == list {
        CollectsOwn(lists, runs, n);
        forall j | 0 <= j < n && RunList(runs, j) == id
          ensures Own(lists, runs[j].pieces) == Own(lists, runs[n - 1].pieces)
        {
          SameListReaches(runs, j, n - 1);
        }
      }
    }
  }

  lemma SameListReaches(runs: seq<Run>, j: nat, k: nat)
    requires j < |runs| && k < |runs| && RunList(runs, j).Some? && RunList(runs, j) == RunList(runs, k)
    ensures Reaches(runs, j, k) && Reaches(runs, k, j)
  {
    hide RunPages;
  }

  /** Without leaks, building the n-th output part collects what its pieces had at the start. */
  lemma {:induction false} CollectsOwn(lists: Lists, runs: seq<Run>, n: nat)
    requires 0 < n <= |runs| && NoLeak(lists, runs)
    ensures Own(After(lists, runs, n - 1), runs[n - 1].pieces) == Own(lists, runs[n - 1].pieces)
    decreases n - 1, 1
  {
    hide Held, After, Own, RunPages, HasList, Reaches;
    var now, pieces := After(lists, runs, n - 1), runs[n - 1].pieces;
    NothingBuilt(lists, runs);
    forall id
      ensures Held(lists, id) <= Held(now, id)
    {
      ListsGrow(lists, runs, 0, n - 1, id);
    }
    OwnGrows(lists, now, pieces);
    forall x <- Own(now, pieces)
      ensures x in Own(lists, pieces)
    {
      OwnComesFromLists(now, pieces, x);
      var id :| HasList(pieces, id) && x in Held(now, id);
      NoLeakSettles(lists, runs, n - 1, id);
      HeldFromOwner(lists, runs, n, id, x);
    }
  }

  lemma {:induction false} HeldFromOwner(lists: Lists, runs: seq<Run>, n: nat, id: Option<ListId>, x: Entry)
    requires 0 < n <= |runs| && NoLeak(lists, runs) && Settled(lists, runs, n - 1, id)
    requires HasList(runs[n - 1].pieces, id) && x in Held(After(lists, runs, n - 1), id)
    ensures x in Own(lists, runs[n - 1].pieces)
  {
    hide Held, After, Own, RunPages, HasList;
    if j :| 0 <= j < n - 1 && RunList(runs, j) == id && id.Some? {
      assert Reaches(runs, j, n - 1);
    } else {
      OwnHasAll(lists, runs[n - 1].pieces, id);
      NoIdNoEntries(lists, runs, n - 1, id);
    }
  }

  lemma NoIdNoEntries(lists: Lists, runs: seq<Run>, n: nat, id: Option<ListId>)
    requires n <= |runs|
    ensures id.None? ==> Held(After(lists, runs, n), id) == {}
  {
  }

  /** Output parts list exactly the pages of their pieces if and only if nothing an output
      part collects reaches another one's list without being there already. */
  lemma PageListsExactly(lists: Lists, runs: seq<Run>)
    ensures AllExact(lists, runs) <==> NoLeak(lists, runs)
  {
    hide Held, Own, RunPages, HasList, FoldRuns;
    assert runs[..|runs|] == runs;
    if NoLeak(lists, runs) {
      forall k | 0 <= k < |runs|
        ensures Exact(lists, runs, k)
      {
        if RunList(runs, k).Some? {
          NoLeakSettles(lists, runs, |runs|, RunList(runs, k));
        } else {
          NoListNoEntries(lists, runs[k].pieces);
          NoIdNoEntries(lists, runs, |runs|, None);
        }
      }
    }
    if AllExact(lists, runs) {
      forall j, k | 0 <= j < |runs| && 0 <= k < |runs| && Reaches(runs, j, k)
        ensures Own(lists, runs[j].pieces) <= Own(lists, runs[k].pieces)
      {
        assert Exact(lists, runs, k);
        LeakIsHeld(lists, runs, j, k);
      }
    }
  }

  lemma {:induction false} LeakIsHeld(lists: Lists, runs: seq<Run>, j: nat, k: nat)
    requires j < |runs| && k < |runs| && Reaches(runs, j, k)
    ensures Own(lists, runs[j].pieces) <= Held(After(lists, runs, |runs|), RunList(runs, k))
  {
    hide Held, After, Own, RunPages, HasList;
    var list := RunList(runs, j);
    OwnIsHeld(lists, runs, j, |runs|);
    if list != RunList(runs, k) {
      OwnIsHeld(lists, runs, j, k);
      OwnHasAll(After(lists, runs, k), runs[k].pieces, list);
      AfterNext(lists, runs, k, RunList(runs, k));
      SomeListHasRunList(runs[k].pieces, list);
      ListsGrow(lists, runs, k + 1, |runs|, RunList(runs, k));
    }
  }

  lemma {:induction false} SomeListHasRunList(pieces: seq<Piece>, id: Option<ListId>)
    requires HasList(pieces, id) && id.Some?
    ensures RunPages(pieces).Some?
  {
    var i :| 0 <= i < |pieces| && pieces[i].part.pages == id;
    if i < |pieces| - 1 {
      assert pieces[..|pieces| - 1][i].part.pages == id;
      SomeListHasRunList(pieces[..|pieces| - 1], id);
    }
  }

  // ----- The output part's list -----

  /** The first of the pieces that has a list, if any has. */
  ghost predicate FirstList(pieces: seq<Piece>, id: Option<ListId>) {
    if id.None? then forall i :: 0 <= i < |pieces| ==> pieces[i].part.pages.None?
    else exists j :: 0 <= j < |pieces| && pieces[j].part.pages == id && forall i :: 0 <= i < j ==> pieces[i].part.pages.None?
  }

  /** An output part refers to the list of its first piece that has one. */
  lemma {:induction false} OutputTakesFirstList(run: Run)
    requires run.pieces != []
    ensures FirstList(run.pieces, Render(run).pages)
  {
    RunTakesFirstList(run.pieces);
  }

  lemma {:induction false} RunTakesFirstList(pieces: seq<Piece>)
    ensures FirstList(pieces, RunPages(pieces))
  {
    if pieces != [] {
      var init := pieces[..|pieces| - 1];
      RunTakesFirstList(init);
      if RunPages(init).Some? {
        var j :| 0 <= j < |init| && init[j].part.pages == RunPages(init)
                 && forall i :: 0 <= i < j ==> init[i].part.pages.None?;
        assert pieces[j].part.pages == RunPages(init) && forall i :: 0 <= i < j ==> pieces[i] == init[i];
      } else {
        assert forall i :: 0 <= i < |init| ==> pieces[i] == init[i];
        assert pieces[|init|].part.pages == Last(pieces).part.pages;
      }
    }
  }
}
