/** Block trees, what they convert to by plain recursion over the tree, and the proof
    that the token cursor does the same on their flattening. */
module MdBlocks {
  import opened Common
  import opened TextLines
  import opened MdTokens

  /** A token that stands alone, or a container from its opening to its closing token. */
  datatype Block = Single(token: Token) | Nested(open: Token, inside: seq<Block>, close: Token)

  function Flat(b: Block): (r: seq<Token>)
    ensures r != []
  {
    match b
    case Single(token) => [token]
    case Nested(open, inside, close) => [open] + FlatAll(inside) + [close]
  }

  function FlatAll(bs: seq<Block>): seq<Token> {
    if bs == [] then [] else Flat(bs[0]) + FlatAll(bs[1..])
  }

  predicate IsNumberedItem(b: Block) {
    b.Nested? && Numbered(b.open)
  }

  /** Tokens are paired by type, and numbered items stand directly in ordered lists. */
  predicate WellFormed(b: Block) {
    match b
    case Single(token) => !token.ttype.Open? && !token.ttype.Close?
    case Nested(open, inside, close) =>
      && open.ttype.Open? && close.ttype == Close(open.ttype.container)
      && AllWellFormed(inside)
      && (open.ttype != Open(OrderedList) ==> forall c <- inside :: !IsNumberedItem(c))
  }

  predicate AllWellFormed(bs: seq<Block>) {
    bs == [] || (WellFormed(bs[0]) && AllWellFormed(bs[1..]))
  }

  /** Lists and quotes count as nesting; a table does not. */
  function Depth(c: Container): nat {
    if c in {Blockquote, OrderedList, BulletList} then 1 else 0
  }

  function NextNumber(b: Block, number: nat): nat {
    if IsNumberedItem(b) then number + 1 else number
  }

  function LastNumber(bs: seq<Block>, number: nat): nat {
    if bs == [] then number else LastNumber(bs[1..], NextNumber(bs[0], number))
  }

  /** The parts of a block with depth lists and quotes around it, whose place in its
      list is number. No state: what is inside a block cannot affect what follows. */
  function BlockParts(b: Block, meta: Meta, depth: int, number: nat, paused: bool): seq<Part>
    requires WellFormed(b)
  {
    match b
    case Single(token) => LeafParts(token, meta, depth, paused)
    case Nested(open, inside, _) =>
      var c := open.ttype.container;
      var parts := AllParts(inside, meta, depth + Depth(c), 1, paused || c == Table);
      Finish(open, parts, Extract(Flat(b), meta, paused), meta, depth, number)
  }

  /** Blocks one after the other, the numbered items counted from number. */
  function AllParts(bs: seq<Block>, meta: Meta, depth: int, number: nat, paused: bool): seq<Part>
    requires AllWellFormed(bs)
  {
    if bs == [] then []
    else BlockParts(bs[0], meta, depth, number, paused)
         + AllParts(bs[1..], meta, depth, NextNumber(bs[0], number), paused)
  }

  // ----- Parts that differ at most in their nesting stamp -----

  function Bare(p: Part): Part {
    p.(meta := p.meta.(nesting := None))
  }

  ghost predicate Alike(x: seq<Part>, y: seq<Part>) {
    |x| == |y| && forall i :: 0 <= i < |x| ==> Bare(x[i]) == Bare(y[i])
  }

  /** The same parts; equal stamps too when exact. */
  ghost predicate Agree(x: seq<Part>, y: seq<Part>, exact: bool) {
    Alike(x, y) && (exact ==> x == y)
  }

  lemma {:induction false} TextAlike(x: seq<Part>, y: seq<Part>)
    requires Alike(x, y)
    ensures AllText(x) == AllText(y) && Contents(x) == Contents(y) && Cells(x) == Cells(y)
  {
    if x != [] {
      assert Bare(x[0]) == Bare(y[0]);
      AlikeTail(x, y);
      TextAlike(x[1..], y[1..]);
    }
  }

  lemma AlikeTail(x: seq<Part>, y: seq<Part>)
    requires Alike(x, y) && x != []
    ensures Alike(x[1..], y[1..])
  {
    hide Bare;
    forall i | 0 <= i < |x| - 1
      ensures Bare(x[1..][i]) == Bare(y[1..][i])
    {
      assert Bare(x[i + 1]) == Bare(y[i + 1]);
    }
  }

  lemma AlikeJoin(a: seq<Part>, b: seq<Part>, c: seq<Part>, d: seq<Part>)
    requires Alike(a, c) && Alike(b, d)
    ensures Alike(a + b, c + d)
  {
    hide Bare;
  }

  lemma {:induction false} QuoteAlike(prefix: string, x: seq<Part>, y: seq<Part>)
    requires Alike(x, y)
    ensures Alike(QuoteAll(prefix, x), QuoteAll(prefix, y))
  {
    hide Indent;
    forall i | 0 <= i < |x|
      ensures Bare(QuoteAll(prefix, x)[i]) == Bare(QuoteAll(prefix, y)[i])
    {
      assert Bare(x[i]) == Bare(y[i]);
    }
  }

  lemma {:induction false} IndentAlike(x: seq<Part>, y: seq<Part>)
    requires Alike(x, y)
    ensures Alike(IndentAll(x), IndentAll(y))
  {
    hide Indent;
    forall i | 0 <= i < |x|
      ensures Bare(IndentAll(x)[i]) == Bare(IndentAll(y)[i])
    {
      assert Bare(x[i]) == Bare(y[i]);
    }
  }

  lemma ItemAlike(token: Token, x: seq<Part>, y: seq<Part>, meta: Meta, n: int, m: int, number: nat)
    requires Alike(x, y)
    ensures Alike(ItemParts(token, x, meta, n, number), ItemParts(token, y, meta, m, number))
  {
    hide Indent, Marker, IndentAll, Repeat;
    if x != [] {
      var marker := Marker(token, number);
      AlikeTail(x, y);
      IndentAlike(x[1..], y[1..]);
      assert Bare(x[0]) == Bare(y[0]);
      var a := MarkFirst(marker, x[0], Stamp(meta, token, n));
      var b := MarkFirst(marker, y[0], Stamp(meta, token, m));
      AlikeJoin(a, IndentAll(x[1..]), b, IndentAll(y[1..]));
    }
  }

  lemma AlikeSelf(x: seq<Part>)
    ensures Alike(x, x)
  {
  }

  lemma AlikeOne(p: Part, q: Part, rest: seq<Part>)
    requires Bare(p) == Bare(q)
    ensures Alike([p] + rest, [q] + rest)
  {
    AlikeSelf(rest);
  }

  /** A container looks at no stamp, and a table keeps none from inside. */
  lemma FinishAlike(token: Token, x: seq<Part>, y: seq<Part>, images: seq<Part>, meta: Meta, n: int, m: int, number: nat)
    requires token.ttype.Open? && Alike(x, y)
    ensures Alike(Finish(token, x, images, meta, n, number), Finish(token, y, images, meta, m, number))
    ensures token.ttype.container == Table ==> Finish(token, x, images, meta, n, number) == Finish(token, y, images, meta, n, number)
  {
    TextAlike(x, y);
    QuoteAlike(token.markup + " ", x, y);
    ItemAlike(token, x, y, meta, n, m, number);
    hide AllText, Contents, Cells, QuoteAll, ItemParts, Repeat, JoinLines, HeadingLevel;
    match token.ttype.container
    case Heading =>
      var level, text := HeadingLevel(token), Some(Repeat("#", HeadingLevel(token)) + " " + AllText(x));
      AlikeOne(Part(Title(level), text, Stamp(meta, token, n)), Part(Title(level), text, Stamp(meta, token, m)), []);
    case Table =>
      var text := Some(JoinLines(Contents(x)));
      AlikeOne(Part(Text, text, Stamp(meta, token, n)), Part(Text, text, Stamp(meta, token, m)), images);
    case Thead =>
      TheadAlike(x, y, meta);
    case _ =>
  }

  lemma TheadAlike(x: seq<Part>, y: seq<Part>, meta: Meta)
    requires Alike(x, y)
    ensures TheadParts(x, meta) == TheadParts(y, meta)
  {
    hide Repeat;
    assert x != [] ==> Bare(x[0]) == Bare(y[0]);
  }

  lemma LeafAlike(token: Token, meta: Meta, n: int, m: int, paused: bool)
    ensures Alike(LeafParts(token, meta, n, paused), LeafParts(token, meta, m, paused))
  {
    hide CodeText, DefinitionText;
  }

  // ----- The cursor reads a block -----

  predicate At(tokens: seq<Token>, i: nat, part: seq<Token>) {
    i + |part| <= |tokens| && tokens[i..i + |part|] == part
  }

  lemma AtSplit(tokens: seq<Token>, i: nat, a: seq<Token>, b: seq<Token>)
    requires At(tokens, i, a + b)
    ensures At(tokens, i, a) && At(tokens, i + |a|, b)
  {
    var all := tokens[i..i + |a + b|];
    assert tokens[i..i + |a|] == all[..|a|];
    assert tokens[i + |a|..i + |a| + |b|] == all[|a|..];
  }

  /** The number does not matter where there are no numbered items. */
  lemma {:induction false} NumberIsUnused(bs: seq<Block>, meta: Meta, depth: int, n: nat, m: nat, paused: bool)
    requires AllWellFormed(bs) && forall c <- bs :: !IsNumberedItem(c)
    ensures AllParts(bs, meta, depth, n, paused) == AllParts(bs, meta, depth, m, paused)
    ensures LastNumber(bs, n) == n
  {
    if bs != [] {
      assert bs[0] in bs;
      BlockNumberIsUnused(bs[0], meta, depth, n, m, paused);
      assert forall c <- bs[1..] :: c in bs;
      hide BlockParts;
      NumberIsUnused(bs[1..], meta, depth, n, m, paused);
    }
  }

  lemma {:induction false} BlockNumberIsUnused(b: Block, meta: Meta, depth: int, n: nat, m: nat, paused: bool)
    requires WellFormed(b) && !IsNumberedItem(b)
    ensures BlockParts(b, meta, depth, n, paused) == BlockParts(b, meta, depth, m, paused)
  {
    hide AllParts, LeafParts, Decimal, Indent, MarkFirst, IndentAll;
    if b.Nested? && b.open.ttype.container == ListItem {
      assert Marker(b.open, n) == Marker(b.open, m);
      hide Marker;
    }
  }

  /** What reading a block does to the context: nothing, unless it is a numbered item. */
  function After(b: Block, st: State): State {
    st.(ordinal := NextNumber(b, st.ordinal))
  }

  /** The cursor stops right behind the block, the context is put back, and the parts
      are those of the tree; their stamps too when the context's nesting is the depth. */
  ghost predicate ReadsAs(r: Reading, b: Block, i: nat, meta: Meta, st: State, depth: int)
    requires WellFormed(b)
  {
    && r.pos == i + |Flat(b)|
    && r.st == After(b, st)
    && Agree(r.parts, BlockParts(b, meta, depth, st.ordinal, st.paused), st.nesting == depth)
  }

  ghost predicate ReadsAllAs(r: Reading, bs: seq<Block>, i: nat, meta: Meta, st: State, depth: int)
    requires AllWellFormed(bs)
  {
    && r.pos == i + |FlatAll(bs)| + 1
    && r.st == st.(ordinal := LastNumber(bs, st.ordinal))
    && Agree(r.parts, AllParts(bs, meta, depth, st.ordinal, st.paused), st.nesting == depth)
  }

  lemma {:induction false} ReadsBlock(tokens: seq<Token>, i: nat, b: Block, meta: Meta, st: State, depth: int)
    requires WellFormed(b) && At(tokens, i, Flat(b))
    ensures ReadsAs(Read(tokens, i, meta, st), b, i, meta, st, depth)
    decreases b
  {
    hide At, Flat, FlatAll, WellFormed, AllWellFormed, Read, ReadUntil, ReadsAs, ReadsAllAs;
    if b.Single? {
      ReadsSingle(tokens, i, b, meta, st, depth);
    } else {
      NestedAt(tokens, i, b);
      var c := b.open.ttype.container;
      ReadsBlocks(tokens, i + 1, b.inside, b.close, meta, Enter(c, st), depth + Depth(c));
      LeavingBlock(tokens, i, b, meta, st, depth);
    }
  }

  lemma {:induction false} ReadsSingle(tokens: seq<Token>, i: nat, b: Block, meta: Meta, st: State, depth: int)
    requires b.Single? && WellFormed(b) && At(tokens, i, Flat(b))
    ensures ReadsAs(Read(tokens, i, meta, st), b, i, meta, st, depth)
  {
    hide Read, LeafParts, Alike;
    ReadLeaf(tokens, i, meta, st);
    LeafAlike(b.token, meta, st.nesting, depth, st.paused);
  }

  lemma {:induction false} NestedAt(tokens: seq<Token>, i: nat, b: Block)
    requires b.Nested? && WellFormed(b) && At(tokens, i, Flat(b))
    ensures AllWellFormed(b.inside) && b.open.ttype.Open? && b.close.ttype == Close(b.open.ttype.container)
    ensures |Flat(b)| == |FlatAll(b.inside)| + 2
    ensures i < |tokens| && tokens[i] == b.open && At(tokens, i + 1, FlatAll(b.inside) + [b.close])
    ensures tokens[i..i + |Flat(b)|] == Flat(b)
  {
    hide FlatAll;
    assert Flat(b) == [b.open] + (FlatAll(b.inside) + [b.close]);
    AtSplit(tokens, i, [b.open], FlatAll(b.inside) + [b.close]);
    assert tokens[i..i + 1][0] == b.open;
  }

  /** From what is inside a container to the container. */
  lemma {:induction false} LeavingBlock(tokens: seq<Token>, i: nat, b: Block, meta: Meta, st: State, depth: int)
    requires WellFormed(b) && b.Nested? && At(tokens, i, Flat(b)) && i < |tokens| && tokens[i] == b.open
    requires var c := b.open.ttype.container;
             ReadsAllAs(ReadUntil(tokens, Close(c), i + 1, meta, Enter(c, st)),
                        b.inside, i + 1, meta, Enter(c, st), depth + Depth(c))
    ensures ReadsAs(Read(tokens, i, meta, st), b, i, meta, st, depth)
  {
    hide At, Flat, FlatAll, AllWellFormed, Read, ReadUntil, AllParts, Enter, Leave, Extract, Finish, Alike;
    var c := b.open.ttype.container;
    NestedAt(tokens, i, b);
    ReadOpen(tokens, i, meta, st);
    var inner := ReadUntil(tokens, Close(c), i + 1, meta, Enter(c, st));
    Leaving(b, inner, i, meta, st, depth);
  }

  lemma {:induction false} Leaving(b: Block, inner: Reading, i: nat, meta: Meta, st: State, depth: int)
    requires WellFormed(b) && b.Nested?
    requires ReadsAllAs(inner, b.inside, i + 1, meta, Enter(b.open.ttype.container, st), depth + Depth(b.open.ttype.container))
    ensures var after := Leave(b.open, st, inner.st);
            && after == After(b, st)
            && Agree(Finish(b.open, inner.parts, Extract(Flat(b), meta, after.paused), meta, after.nesting, inner.st.ordinal),
                     BlockParts(b, meta, depth, st.ordinal, st.paused), st.nesting == depth)
  {
    hide Alike, AllParts, LastNumber, Finish, Extract, Flat, FlatAll, AllWellFormed;
    var c := b.open.ttype.container;
    var inside := Enter(c, st);
    if c != OrderedList {
      NumberIsUnused(b.inside, meta, depth + Depth(c), inside.ordinal, 1, inside.paused);
    }
    LeaveRestores(b, st, inner.st);
    var parts := AllParts(b.inside, meta, depth + Depth(c), 1, inside.paused);
    FinishAlike(b.open, inner.parts, parts, Extract(Flat(b), meta, st.paused), meta, st.nesting, depth, st.ordinal);
    FinishNumber(b.open, inner.parts, Extract(Flat(b), meta, st.paused), meta, st.nesting, inner.st.ordinal, st.ordinal);
  }

  lemma LeaveRestores(b: Block, st: State, inside: State)
    requires b.Nested? && b.open.ttype.Open?
    requires inside == Enter(b.open.ttype.container, st).(ordinal := inside.ordinal)
    requires b.open.ttype.container != OrderedList ==> inside.ordinal == st.ordinal
    ensures Leave(b.open, st, inside) == After(b, st)
  {
  }

  lemma FinishNumber(token: Token, parts: seq<Part>, images: seq<Part>, meta: Meta, nesting: int, n: nat, m: nat)
    requires token.ttype.Open? && (token.ttype.container == ListItem ==> n == m)
    ensures Finish(token, parts, images, meta, nesting, n) == Finish(token, parts, images, meta, nesting, m)
  {
  }

  lemma {:induction false} ReadsBlocks(tokens: seq<Token>, i: nat, bs: seq<Block>, close: Token, meta: Meta, st: State, depth: int)
    requires AllWellFormed(bs) && close.ttype.Close? && At(tokens, i, FlatAll(bs) + [close])
    ensures ReadsAllAs(ReadUntil(tokens, close.ttype, i, meta, st), bs, i, meta, st, depth)
    decreases bs
  {
    hide At, Flat, FlatAll, WellFormed, AllWellFormed, Read, ReadUntil, ReadsAs, ReadsAllAs, After;
    if bs == [] {
      ReadsNoBlocks(tokens, i, close, meta, st, depth);
    } else {
      FirstAt(tokens, i, bs, close);
      var next := i + |Flat(bs[0])|;
      ReadsBlock(tokens, i, bs[0], meta, st, depth);
      ReadsBlocks(tokens, next, bs[1..], close, meta, After(bs[0], st), depth);
      JoinReadings(tokens, i, bs, close, meta, st, depth);
    }
  }

  lemma {:induction false} ReadsNoBlocks(tokens: seq<Token>, i: nat, close: Token, meta: Meta, st: State, depth: int)
    requires At(tokens, i, FlatAll([]) + [close])
    ensures ReadsAllAs(ReadUntil(tokens, close.ttype, i, meta, st), [], i, meta, st, depth)
  {
    assert [] + [close] == [close] && tokens[i..i + 1][0] == close;
    ReadUntilUnfolds(tokens, close.ttype, i, meta, st);
  }

  /** The first of several blocks, and that it does not look like their closing token. */
  lemma {:induction false} FirstAt(tokens: seq<Token>, i: nat, bs: seq<Block>, close: Token)
    requires bs != [] && AllWellFormed(bs) && close.ttype.Close? && At(tokens, i, FlatAll(bs) + [close])
    ensures i < |tokens| && tokens[i].ttype != close.ttype
    ensures WellFormed(bs[0]) && AllWellFormed(bs[1..])
    ensures At(tokens, i, Flat(bs[0])) && At(tokens, i + |Flat(bs[0])|, FlatAll(bs[1..]) + [close])
  {
    var first, rest := Flat(bs[0]), FlatAll(bs[1..]) + [close];
    assert FlatAll(bs) + [close] == first + rest;
    AtSplit(tokens, i, first, rest);
    assert tokens[i..i + |first|][0] == first[0];
    assert !first[0].ttype.Close?;
  }

  lemma JoinReadings(tokens: seq<Token>, i: nat, bs: seq<Block>, close: Token, meta: Meta, st: State, depth: int)
    requires bs != [] && AllWellFormed(bs) && i < |tokens| && tokens[i].ttype != close.ttype
    requires ReadsAs(Read(tokens, i, meta, st), bs[0], i, meta, st, depth)
    requires i + |Flat(bs[0])| <= |tokens|
    requires ReadsAllAs(ReadUntil(tokens, close.ttype, i + |Flat(bs[0])|, meta, After(bs[0], st)),
                        bs[1..], i + |Flat(bs[0])|, meta, After(bs[0], st), depth)
    ensures ReadsAllAs(ReadUntil(tokens, close.ttype, i, meta, st), bs, i, meta, st, depth)
  {
    hide Alike, Read, ReadUntil, BlockParts, AllParts, Flat, FlatAll, LastNumber, NextNumber, AllWellFormed, WellFormed;
    AllPartsUnfolds(bs, meta, depth, st.ordinal, st.paused);
    ReadUntilUnfolds(tokens, close.ttype, i, meta, st);
    var a := BlockParts(bs[0], meta, depth, st.ordinal, st.paused);
    var b := AllParts(bs[1..], meta, depth, NextNumber(bs[0], st.ordinal), st.paused);
    var first := Read(tokens, i, meta, st);
    var rest := ReadUntil(tokens, close.ttype, first.pos, meta, first.st);
    AlikeJoin(first.parts, rest.parts, a, b);
  }

  lemma {:induction false} AllPartsUnfolds(bs: seq<Block>, meta: Meta, depth: int, number: nat, paused: bool)
    requires bs != [] && AllWellFormed(bs)
    ensures WellFormed(bs[0]) && AllWellFormed(bs[1..])
    ensures AllParts(bs, meta, depth, number, paused)
            == BlockParts(bs[0], meta, depth, number, paused)
               + AllParts(bs[1..], meta, depth, NextNumber(bs[0], number), paused)
    ensures |FlatAll(bs)| == |Flat(bs[0])| + |FlatAll(bs[1..])|
    ensures LastNumber(bs, number) == LastNumber(bs[1..], NextNumber(bs[0], number))
  {
    hide BlockParts, Flat, WellFormed;
  }

  /** On the flattening of any sequence of block trees, the converter makes exactly the
      parts that recursion over the trees makes. */
  lemma {:induction false} ConverterIsStructural(bs: seq<Block>, meta: Meta)
    requires AllWellFormed(bs)
    ensures ReadAll(FlatAll(bs), 0, meta, START) == AllParts(bs, meta, 0, 1, false)
  {
    ReadsForest([], bs, meta, START);
    assert [] + FlatAll(bs) == FlatAll(bs);
  }

  lemma {:induction false} ReadsForest(before: seq<Token>, bs: seq<Block>, meta: Meta, st: State)
    requires AllWellFormed(bs)
    ensures ReadAll(before + FlatAll(bs), |before|, meta, st) == AllParts(bs, meta, st.nesting, st.ordinal, st.paused)
    decreases bs
  {
    hide Read, Flat, Alike, BlockParts, WellFormed, LastNumber, At;
    if bs != [] {
      var tokens := before + FlatAll(bs);
      var next := before + Flat(bs[0]);
      ForestAt(before, bs);
      ReadsBlock(tokens, |before|, bs[0], meta, st, st.nesting);
      ReadsForest(next, bs[1..], meta, After(bs[0], st));
    }
  }

  lemma {:induction false} ForestAt(before: seq<Token>, bs: seq<Block>)
    requires bs != []
    ensures before + FlatAll(bs) == before + Flat(bs[0]) + FlatAll(bs[1..])
    ensures At(before + FlatAll(bs), |before|, Flat(bs[0]))
  {
    hide Flat;
    assert (before + FlatAll(bs))[|before|..|before| + |Flat(bs[0])|] == Flat(bs[0]);
  }
}
