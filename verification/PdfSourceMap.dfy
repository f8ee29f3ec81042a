/** The page lists that parts carry as pdf_source_map: copies of metadata share a list, and
    merging appends to it in place, so a list may hold more than was merged, never less. */
module PdfSourceMap {
  import opened PageLists

  class PageList {
    var items: seq<Entry>

    constructor (items: seq<Entry>)
      ensures this.items == items
    {
      this.items := items;
    }
  }

  /** The metadata of a part, as far as page lists go. */
  class Metadata {
    var pages: PageList?

    constructor (pages: PageList?)
      ensures this.pages == pages
    {
      this.pages := pages;
    }

    function Entries(): seq<Entry>
      reads this, pages
    {
      if pages == null then [] else pages.items
    }
  }

  datatype Merging = Merging(dest: Metadata, src: Metadata)

  method Merge(ghost lists: set<PageList>, dest: Metadata, src: Metadata)
    requires dest.pages == null || dest.pages in lists
    modifies dest`pages, lists`items
    ensures forall l <- lists :: l != old(dest.pages) ==> l.items == old(l.items)
    ensures src.pages == old(src.pages) || src == dest
    ensures old(src.pages) == null ==> dest.pages == old(dest.pages) && dest.Entries() == old(dest.Entries())
    ensures old(dest.pages) == null && old(src.pages) != null ==> dest.pages == old(src.pages)
    ensures old(dest.pages) != null ==>
              dest.pages == old(dest.pages) && dest.pages.items == Extend(old(dest.pages.items), old(src.Entries()))
  {
    if src.pages == null {
      return;
    }
    if dest.pages == null {
      dest.pages := src.pages;
      return;
    }
    var list, items := dest.pages, src.pages.items;
    ghost var before := list.items;
    assert items[0..] == items;
    for i := 0 to |items|
      invariant dest.pages == list && Extend(list.items, items[i..]) == Extend(before, items)
      invariant forall l <- lists :: l != list ==> l.items == old(l.items)
      modifies list`items
    {
      ExtendUnfolds(list.items, items, i);
      if items[i] !in list.items {
        list.items := list.items + [items[i]];
      }
    }
    ExtendUnfolds(list.items, items, |items|);
  }

  /** All lists that the metadata may share. */
  ghost predicate Closed(all: set<Metadata>, lists: set<PageList>)
    reads all
  {
    forall m <- all :: m.pages == null || m.pages in lists
  }

  /** All entries of the lists come from the pool. */
  ghost predicate Within(lists: set<PageList>, pool: set<Entry>)
    reads lists
  {
    forall l <- lists :: forall x <- l.items :: x in pool
  }

  /** The part has a list, and all these entries are in it. */
  ghost predicate Holds(m: Metadata, entries: seq<Entry>)
    reads m, m.pages
  {
    m.pages != null && forall x <- entries :: x in m.pages.items
  }

  /** One merge among parts that share lists: the part merged into holds the entries of
      both; lists only grow, without new duplicates, and a part keeps the list it has. Any
      other part keeps its entries exactly when there was no list to append to, or it does
      not share that list, or nothing is new in it. */
  method MergeInto(all: set<Metadata>, ghost lists: set<PageList>, ghost pool: set<Entry>, dest: Metadata, src: Metadata)
    requires Closed(all, lists) && Within(lists, pool) && dest in all && src in all
    modifies all`pages, lists`items
    ensures Closed(all, lists) && Within(lists, pool)
    ensures forall m <- all :: old(m.pages) != null ==> m.pages == old(m.pages)
    ensures forall l <- lists :: old(l.items) <= l.items
    ensures forall l <- lists :: NoDuplicates(old(l.items)) ==> NoDuplicates(l.items)
    ensures old(src.pages) != null ==> Holds(dest, old(src.Entries()))
    ensures forall m <- all | m != dest ::
              m.Entries() == old(m.Entries())
              <==> old(dest.pages) == null || old(m.pages) != old(dest.pages)
                   || forall x <- old(src.Entries()) :: x in old(dest.Entries())
  {
    hide Extend, NoDuplicates;
    ExtendLosesNothing(dest.Entries(), src.Entries());
    ExtendChangesNothing(dest.Entries(), src.Entries());
    assert dest.pages != null ==> dest.pages in lists;
    assert src.pages != null ==> src.pages in lists;
    Merge(lists, dest, src);
  }

  /** Over every sequence of merges between parts whose lists are shared in any way: the
      part merged into holds at the end what the merged one held at the start; a part keeps
      its list, which only grows; no entry comes from nowhere; and a list without duplicates
      stays so. */
  method RunMerges(all: set<Metadata>, ghost lists: set<PageList>, ghost pool: set<Entry>, merges: seq<Merging>)
    requires Closed(all, lists) && Within(lists, pool)
    requires forall k :: 0 <= k < |merges| ==> merges[k].dest in all && merges[k].src in all
    modifies all`pages, lists`items
    ensures Closed(all, lists) && Within(lists, pool)
    ensures forall m <- all :: old(m.pages) != null ==> m.pages == old(m.pages)
    ensures forall l <- lists :: old(l.items) <= l.items
    ensures forall l <- lists :: NoDuplicates(old(l.items)) ==> NoDuplicates(l.items)
    ensures forall k :: 0 <= k < |merges| && old(merges[k].src.pages) != null ==>
              Holds(merges[k].dest, old(merges[k].src.Entries()))
  {
    hide NoDuplicates, Within;
    for i := 0 to |merges|
      invariant Closed(all, lists) && Within(lists, pool)
      invariant forall m <- all :: old(m.pages) != null ==> m.pages == old(m.pages)
      invariant forall l <- lists :: old(l.items) <= l.items
      invariant forall l <- lists :: NoDuplicates(old(l.items)) ==> NoDuplicates(l.items)
      invariant forall k :: 0 <= k < i && old(merges[k].src.pages) != null ==>
                  Holds(merges[k].dest, old(merges[k].src.Entries()))
    {
      assert merges[i].src.pages != null ==> merges[i].src.pages in lists;
      MergeInto(all, lists, pool, merges[i].dest, merges[i].src);
    }
  }

  /** The list of an input part may come to hold what was merged into another part: here the
      part that took over the first one's metadata. */
  method SharedListGrows(x: Entry, y: Entry) returns (input: Metadata, output: Metadata)
    requires x != y
    ensures input.Entries() == output.Entries() == [x, y]
  {
    var list := new PageList([x]);
    input := new Metadata(list);
    output := new Metadata(input.pages);
    var other := new PageList([y]);
    var next := new Metadata(other);
    ExtendOne(x, y);
    Merge({list, other}, output, next);
  }

  lemma ExtendOne(x: Entry, y: Entry)
    requires x != y
    ensures Extend([x], [y]) == [x, y]
  {
    assert [y][1..] == [];
    assert Extend([x], [y]) == Extend([x] + [y], []);
  }
}
