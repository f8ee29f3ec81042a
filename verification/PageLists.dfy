/** Page lists as values: the lists that parts refer to, and what merging does to them. */
module PageLists {
  import opened Common

  /** One entry: a page and where on it. */
  type Entry = string

  /** Which list object a part's metadata refers to; copies of metadata refer to the same. */
  type ListId = nat

  type Lists = map<ListId, seq<Entry>>

  /** The entries of b that are missing in a, appended in order. */
  function Extend(a: seq<Entry>, b: seq<Entry>): seq<Entry>
    decreases |b|
  {
    if b == [] then a else Extend(if b[0] in a then a else a + [b[0]], b[1..])
  }

  function Entries(lists: Lists, id: Option<ListId>): seq<Entry> {
    if id.Some? && id.value in lists then lists[id.value] else []
  }

  /** The list a part refers to after src was merged into it. */
  function Taken(dest: Option<ListId>, src: Option<ListId>): Option<ListId> {
    if dest.None? then src else dest
  }

  /** The lists after src was merged into dest: in place, if both have one. */
  function Merged(lists: Lists, dest: Option<ListId>, src: Option<ListId>): Lists {
    if dest.None? || src.None? then lists
    else lists[dest.value := Extend(Entries(lists, dest), Entries(lists, src))]
  }

  predicate NoDuplicates(s: seq<Entry>) {
    forall i, j :: 0 <= i < j < |s| ==> s[i] != s[j]
  }

  /** Merging loses nothing, invents nothing, and adds no duplicate. */
  lemma {:induction false} ExtendLosesNothing(a: seq<Entry>, b: seq<Entry>)
    ensures a <= Extend(a, b)
    ensures forall x :: x in Extend(a, b) <==> x in a || x in b
    ensures NoDuplicates(a) ==> NoDuplicates(Extend(a, b))
    decreases |b|
  {
    if b != [] {
      var next := if b[0] in a then a else a + [b[0]];
      assert b == [b[0]] + b[1..];
      ExtendLosesNothing(next, b[1..]);
    }
  }

  /** One more entry is appended at the end, unless it is there. */
  lemma {:induction false} ExtendAppends(a: seq<Entry>, b: seq<Entry>, x: Entry)
    ensures Extend(a, []) == a
    ensures Extend(a, b + [x]) == Extend(a, b) + if x in a || x in b then [] else [x]
    decreases |b|
  {
    if b == [] {
      assert b + [x] == [x] && [x][1..] == [];
      assert Extend(a, [x]) == Extend(if x in a then a else a + [x], []);
    } else {
      assert (b + [x])[0] == b[0] && (b + [x])[1..] == b[1..] + [x] && b == [b[0]] + b[1..];
      ExtendAppends(if b[0] in a then a else a + [b[0]], b[1..], x);
    }
  }

  /** A list stays as it is exactly when it has all entries of the other one. */
  lemma {:induction false} ExtendChangesNothing(a: seq<Entry>, b: seq<Entry>)
    ensures Extend(a, b) == a <==> forall x <- b :: x in a
    decreases |b|
  {
    if b != [] {
      assert b == [b[0]] + b[1..];
      if b[0] in a {
        ExtendChangesNothing(a, b[1..]);
      } else {
        ExtendLosesNothing(a + [b[0]], b[1..]);
      }
    }
  }

  lemma {:induction false} ExtendUnfolds(a: seq<Entry>, b: seq<Entry>, i: nat)
    requires i <= |b|
    ensures i == |b| ==> Extend(a, b[i..]) == a
    ensures i < |b| ==> Extend(a, b[i..]) == Extend(if b[i] in a then a else a + [b[i]], b[i + 1..])
  {
    if i < |b| {
      assert b[i..][1..] == b[i + 1..];
    }
  }
}
