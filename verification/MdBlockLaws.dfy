/** What the converter promises about numbering, nesting stamps, images and its context. */
module MdBlockLaws {
  import opened Common
  import opened TextLines
  import opened MdTokens
  import opened MdBlocks

  // ----- The context -----

  /** On any token stream, well nested or not, converting puts nesting and pause back. */
  lemma {:induction false} ContextIsRestored(tokens: seq<Token>, i: nat, meta: Meta, st: State)
    ensures var after := Read(tokens, i, meta, st).st; after.nesting == st.nesting && after.paused == st.paused
    decreases |tokens| - i, 0
  {
    hide Read, ReadUntil, Finish, Extract, LeafParts;
    if i >= |tokens| {
      ReadNothing(tokens, i, meta, st);
    } else if tokens[i].ttype.Open? {
      var c := tokens[i].ttype.container;
      ReadOpen(tokens, i, meta, st);
      ContextIsRestoredInside(tokens, Close(c), i + 1, meta, Enter(c, st));
    } else {
      ReadLeaf(tokens, i, meta, st);
    }
  }

  lemma {:induction false} ContextIsRestoredInside(tokens: seq<Token>, close: TokenType, i: nat, meta: Meta, st: State)
    requires i <= |tokens|
    ensures var after := ReadUntil(tokens, close, i, meta, st).st; after.nesting == st.nesting && after.paused == st.paused
    decreases |tokens| - i, 1
  {
    hide Read, ReadUntil;
    ReadUntilUnfolds(tokens, close, i, meta, st);
    if i < |tokens| && tokens[i].ttype != close {
      var first := Read(tokens, i, meta, st);
      ContextIsRestored(tokens, i, meta, st);
      ContextIsRestoredInside(tokens, close, first.pos, meta, first.st);
    }
  }

  // ----- Texts -----

  /** Quoting and indenting mark every line of a text and add none: the first line gets
      one mark, the others the other. */
  lemma {:induction false} IndentMarksEveryLine(text: string, first: string, rest: string)
    requires OneLine(first) && OneLine(rest)
    ensures var before, after := Lines(text), Lines(Indent(text, first, rest));
            && |after| == |before| && after[0] == first + before[0]
            && forall i :: 0 < i < |after| ==> after[i] == rest + before[i]
  {
    hide Lines, JoinLines, PrefixAll, OneLine;
    var ls := Lines(text);
    var marked := [first + ls[0]] + PrefixAll(ls[1..], rest);
    LinesAreSingle(text);
    forall i | 0 <= i < |marked|
      ensures OneLine(marked[i])
    {
      assert ls[i] in ls;
      JoinedLine(if i == 0 then first else rest, ls[i]);
    }
    LinesOfJoin(marked);
  }

  lemma JoinedLine(a: string, b: string)
    requires OneLine(a) && OneLine(b)
    ensures OneLine(a + b)
  {
  }

  lemma {:induction false} RunStartsWithShorter(n: nat, m: nat)
    requires n <= m
    ensures Repeat("`", n) <= Repeat("`", m)
  {
    if n > 0 {
      RunStartsWithShorter(n - 1, m - 1);
      StartStays("`", Repeat("`", n - 1), Repeat("`", m - 1));
    }
  }

  lemma StartStays(a: string, b: string, c: string)
    requires b <= c
    ensures a + b <= a + c
  {
  }

  lemma {:induction false} ContainsShorter(code: string, part: string, longer: string)
    requires part <= longer && Contains(code, longer)
    ensures Contains(code, part)
  {
    if !(longer <= code) {
      ContainsShorter(code[1..], part, longer);
    }
  }

  /** A code fence does not occur in the code, unless as many backticks do as the longest
      one tried has. */
  lemma {:induction false} FenceIsNotInCode(code: string, n: nat, tries: nat)
    ensures Contains(code, Backticks(code, n, tries)) <==> Contains(code, Repeat("`", n + tries))
    decreases tries
  {
    hide Contains, Repeat;
    RunStartsWithShorter(n, n + tries);
    if Contains(code, Repeat("`", n + tries)) {
      ContainsShorter(code, Repeat("`", n), Repeat("`", n + tries));
    }
    if tries > 0 && Contains(code, Repeat("`", n)) {
      FenceIsNotInCode(code, n + 1, tries - 1);
    }
  }

  lemma {:induction false} CellIsOneLine(text: string)
    ensures OneLine(EscapeCell(text))
  {
    if text != "" {
      CellIsOneLine(text[1..]);
    }
  }

  /** A table row is one line, whatever its cells hold. */
  lemma {:induction false} RowIsOneLine(cells: seq<Part>)
    ensures OneLine(Cells(cells))
  {
    hide EscapeCell;
    if cells != [] {
      RowIsOneLine(cells[1..]);
      if cells[0].content.Some? {
        CellIsOneLine(cells[0].content.value);
      }
    }
  }

  // ----- Numbering -----

  /** A list is the first k items, then the k-th, then the others. */
  lemma {:induction false} SplitItems(items: seq<Block>, k: nat, meta: Meta, depth: int, number: nat, paused: bool)
    requires k < |items| && AllWellFormed(items)
    requires forall i :: 0 <= i < |items| ==> IsNumberedItem(items[i])
    ensures AllWellFormed(items[..k]) && WellFormed(items[k]) && AllWellFormed(items[k + 1..])
    ensures AllParts(items, meta, depth, number, paused)
            == AllParts(items[..k], meta, depth, number, paused)
               + (BlockParts(items[k], meta, depth, number + k, paused)
                  + AllParts(items[k + 1..], meta, depth, number + k + 1, paused))
  {
    hide BlockParts, WellFormed, IsNumberedItem, Flat, FlatAll;
    AllPartsUnfolds(items, meta, depth, number, paused);
    if k == 0 {
    } else {
      SplitItems(items[1..], k - 1, meta, depth, number + 1, paused);
      var init := items[..k];
      assert init[1..] == items[1..][..k - 1] && init[0] == items[0];
      AllPartsUnfolds(init, meta, depth, number, paused);
      hide AllParts, AllWellFormed;
      assert items[1..][k..] == items[k + 1..];
    }
  }

  lemma MarkerComesFirst(token: Token, parts: seq<Part>, meta: Meta, nesting: int, number: nat)
    ensures var r := ItemParts(token, parts, meta, nesting, number);
            r != [] && r[0].content.Some? && Marker(token, number) <= r[0].content.value
  {
    hide Decimal, Lines, Repeat, PrefixAll, JoinLines, Marker;
    if parts != [] && IsText(parts[0]) {
      var marker, text := Marker(token, number), OrEmpty(parts[0].content);
      JoinLinesStart(marker + Lines(text)[0], PrefixAll(Lines(text)[1..], Repeat(" ", |marker|)));
      assert Indent(text, marker, Repeat(" ", |marker|))
          == JoinLines([marker + Lines(text)[0]] + PrefixAll(Lines(text)[1..], Repeat(" ", |marker|)));
    }
  }

  lemma {:induction false} JoinLinesStart(first: string, rest: seq<string>)
    ensures first <= JoinLines([first] + rest)
  {
    if rest != [] {
      JoinLinesAppend([first], rest);
      assert JoinLines([first]) == first;
    }
  }

  /** In every ordered list, however deep, the parts of the k-th item start with a
      text that carries the number k: nothing inside other items disturbs the count. */
  lemma {:induction false} KthItemIsNumberedK(list: Block, k: nat, meta: Meta, depth: int, number: nat, paused: bool)
    requires WellFormed(list) && list.Nested? && list.open.ttype == Open(OrderedList)
    requires k < |list.inside| && forall i :: 0 <= i < |list.inside| ==> IsNumberedItem(list.inside[i])
    ensures AllWellFormed(list.inside[..k])
    ensures var whole := BlockParts(list, meta, depth, number, paused);
            var before := AllParts(list.inside[..k], meta, depth + 1, 1, paused);
            before < whole && StartsWithNumber(whole[|before|], list.inside[k], k + 1)
  {
    hide AllParts, AllWellFormed, BlockParts, StartsWithNumber;
    ListParts(list, meta, depth, number, paused);
    SplitItems(list.inside, k, meta, depth + 1, 1, paused);
    ItemBlock(list.inside[k], meta, depth + 1, 1 + k, paused);
  }

  /** The text of p starts with the item's number, its own markup and a blank. */
  predicate StartsWithNumber(p: Part, item: Block, number: nat) {
    && item.Nested? && p.content.Some?
    && Decimal(number) + item.open.markup + " " <= p.content.value
  }

  lemma {:induction false} ListParts(list: Block, meta: Meta, depth: int, number: nat, paused: bool)
    requires WellFormed(list) && list.Nested? && list.open.ttype == Open(OrderedList)
    ensures AllWellFormed(list.inside)
    ensures BlockParts(list, meta, depth, number, paused) == AllParts(list.inside, meta, depth + 1, 1, paused)
  {
    hide AllParts, AllWellFormed;
  }

  lemma {:induction false} ItemBlock(item: Block, meta: Meta, depth: int, number: nat, paused: bool)
    requires WellFormed(item) && IsNumberedItem(item)
    ensures var r := BlockParts(item, meta, depth, number, paused);
            r != [] && StartsWithNumber(r[0], item, number)
  {
    hide Decimal, AllParts, ItemParts;
    MarkerComesFirst(item.open, AllParts(item.inside, meta, depth, 1, paused), meta, depth, number);
  }

  // ----- Nesting stamps -----

  /** Only tokens that have handlers, and the pieces of tables only inside tables. */
  predicate Plain(b: Block) {
    match b
    case Single(token) => token.ttype.Leaf?
    case Nested(open, inside, _) =>
      && open.ttype.Open? && open.ttype.container !in {Thead, Tbody, Tr, Th, Td}
      && (open.ttype.container in {Table, Heading} || AllPlain(inside))
  }

  predicate AllPlain(bs: seq<Block>) {
    bs == [] || (Plain(bs[0]) && AllPlain(bs[1..]))
  }

  /** Makes no part at all: nothing but paragraphs, quotes and lists without content. */
  predicate Silent(b: Block) {
    b.Nested? && b.open.ttype.Open? && b.open.ttype.container !in {Heading, Table, ListItem} && AllSilent(b.inside)
  }

  predicate AllSilent(bs: seq<Block>) {
    bs == [] || (Silent(bs[0]) && AllSilent(bs[1..]))
  }

  /** The first part made is a code block. */
  predicate CodeFirst(b: Block) {
    match b
    case Single(token) => token.ttype in {Leaf(CodeBlock), Leaf(Fence)}
    case Nested(open, inside, _) =>
      open.ttype.Open? && open.ttype.container !in {Heading, Table, ListItem} && AnyCodeFirst(inside)
  }

  predicate AnyCodeFirst(bs: seq<Block>) {
    bs != [] && if Silent(bs[0]) then AnyCodeFirst(bs[1..]) else CodeFirst(bs[0])
  }

  /** The tokens that give a part its stamp, in order, each with the number of lists and
      quotes around it: tokens that stand alone, headings, tables, and those list items
      whose marker becomes a part of its own. */
  function StampSources(b: Block, depth: int): seq<(Token, int)> {
    match b
    case Single(token) => [(token, depth)]
    case Nested(open, inside, _) =>
      if !open.ttype.Open? then []
      else
        var c := open.ttype.container;
        if c in {Heading, Table} then [(open, depth)]
        else
          (if c == ListItem && (AllSilent(inside) || AnyCodeFirst(inside)) then [(open, depth)] else [])
          + AllStampSources(inside, depth + Depth(c))
  }

  function AllStampSources(bs: seq<Block>, depth: int): seq<(Token, int)> {
    if bs == [] then [] else StampSources(bs[0], depth) + AllStampSources(bs[1..], depth)
  }

  /** The metadata of the parts that are no images, in order. */
  function Stamps(parts: seq<Part>): seq<Meta> {
    if parts == [] then []
    else (if parts[0].kind.Picture? then [] else [parts[0].meta]) + Stamps(parts[1..])
  }

  /** The k-th stamp is that of the k-th source: its lines and its depth. */
  predicate Carry(stamps: seq<Meta>, sources: seq<(Token, int)>) {
    && |stamps| == |sources|
    && forall k :: 0 <= k < |stamps| ==>
         stamps[k].lines == sources[k].0.lines && stamps[k].nesting == Some(sources[k].1)
  }

  lemma CarryJoin(a: seq<Meta>, x: seq<(Token, int)>, b: seq<Meta>, y: seq<(Token, int)>)
    requires Carry(a, x) && Carry(b, y)
    ensures Carry(a + b, x + y)
  {
  }

  lemma {:induction false} StampsUnfold(parts: seq<Part>)
    ensures parts == [] ==> Stamps(parts) == []
    ensures parts != [] ==>
              Stamps(parts) == (if parts[0].kind.Picture? then [] else [parts[0].meta]) + Stamps(parts[1..])
  {
  }

  lemma {:induction false} StampsJoin(a: seq<Part>, b: seq<Part>)
    ensures Stamps(a + b) == Stamps(a) + Stamps(b)
  {
    hide Stamps;
    StampsUnfold(a);
    if a == [] {
      assert a + b == b;
    } else {
      assert (a + b)[1..] == a[1..] + b;
      StampsUnfold(a + b);
      StampsJoin(a[1..], b);
    }
  }

  /** Rewriting texts leaves the stamps as they are. */
  lemma {:induction false} SameStamps(a: seq<Part>, b: seq<Part>)
    requires |a| == |b|
    requires forall i :: 0 <= i < |a| ==> a[i].kind.Picture? == b[i].kind.Picture? && a[i].meta == b[i].meta
    ensures Stamps(a) == Stamps(b)
  {
    hide Stamps;
    StampsUnfold(a);
    StampsUnfold(b);
    if a != [] {
      SameStamps(a[1..], b[1..]);
    }
  }

  lemma {:induction false} QuoteStamps(prefix: string, parts: seq<Part>)
    ensures Stamps(QuoteAll(prefix, parts)) == Stamps(parts)
  {
    hide Indent, Stamps;
    SameStamps(QuoteAll(prefix, parts), parts);
  }

  lemma {:induction false} IndentStamps(parts: seq<Part>)
    ensures Stamps(IndentAll(parts)) == Stamps(parts)
  {
    hide Indent, Stamps;
    SameStamps(IndentAll(parts), parts);
  }

  lemma {:induction false} NoStamps(images: seq<Image>, meta: Meta)
    ensures Stamps(Pictures(images, meta)) == []
  {
    hide Stamps;
    StampsUnfold(Pictures(images, meta));
    if images != [] {
      assert Pictures(images, meta)[1..] == Pictures(images[1..], meta);
      NoStamps(images[1..], meta);
    }
  }

  lemma {:induction false} OneStamp(p: Part, images: seq<Image>, meta: Meta, paused: bool)
    requires !p.kind.Picture?
    ensures Stamps([p] + if paused then [] else Pictures(images, meta)) == [p.meta]
  {
    hide Stamps, Pictures;
    var more := if paused then [] else Pictures(images, meta);
    NoStamps(images, meta);
    StampsUnfold([]);
    StampsUnfold([p] + more);
    assert ([p] + more)[1..] == more;
  }

  lemma LeafStamps(token: Token, meta: Meta, depth: int, paused: bool)
    requires token.ttype.Leaf?
    ensures Carry(Stamps(LeafParts(token, meta, depth, paused)), [(token, depth)])
  {
    hide Stamps, CodeText, DefinitionText, Images, Pictures;
    var p := LeafParts(token, meta, depth, paused)[0];
    if token.ttype.leaf == Inline {
      OneStamp(p, Images([token]), meta, paused);
    } else {
      OneStamp(p, [], meta, true);
      assert LeafParts(token, meta, depth, paused) == [p] + [];
    }
  }

  /** What the first part of an item's content makes of the marker. */
  lemma {:induction false} ItemStamps(open: Token, parts: seq<Part>, meta: Meta, depth: int, number: nat, sources: seq<(Token, int)>)
    requires Carry(Stamps(parts), sources)
    ensures var own := parts == [] || !IsText(parts[0]);
            Carry(Stamps(ItemParts(open, parts, meta, depth, number)), (if own then [(open, depth)] else []) + sources)
  {
    hide Stamps, Indent, Marker, Repeat, IndentAll, Carry;
    var stamp := Stamp(meta, open, depth);
    var mark := Part(Text, Some(Marker(open, number)), stamp);
    OneStamp(mark, [], meta, true);
    assert [mark] + [] == [mark];
    MarkCarries(open, meta, depth);
    if parts == [] {
      CarryJoin([stamp], [(open, depth)], Stamps(parts), sources);
      StampsUnfold(parts);
      assert [stamp] + [] == [stamp];
    } else {
      var first, rest := MarkFirst(Marker(open, number), parts[0], stamp), IndentAll(parts[1..]);
      IndentStamps(parts[1..]);
      StampsJoin(first, rest);
      if IsText(parts[0]) {
        StampsUnfold(parts);
        OneStamp(first[0], [], meta, true);
        assert [first[0]] + [] == first && [] + sources == sources;
      } else {
        StampsUnfold([mark, parts[0]]);
        assert [mark, parts[0]][1..] == [parts[0]];
        assert parts == [parts[0]] + parts[1..];
        StampsJoin([parts[0]], parts[1..]);
        CarryJoin([stamp], [(open, depth)], Stamps(parts), sources);
        assert [stamp] + Stamps([parts[0]]) + Stamps(rest) == [stamp] + Stamps(parts);
      }
    }
  }

  lemma MarkCarries(open: Token, meta: Meta, depth: int)
    ensures Carry([Stamp(meta, open, depth)], [(open, depth)])
  {
  }

  /** Whether a block makes parts, and whether the first of them is code. */
  predicate FirstTold(parts: seq<Part>, silent: bool, code: bool) {
    && (parts == [] <==> silent)
    && (parts != [] ==> (code <==> !IsText(parts[0])))
  }

  lemma FirstJoin(a: seq<Part>, b: seq<Part>, silentA: bool, codeA: bool, silentB: bool, codeB: bool)
    requires FirstTold(a, silentA, codeA) && FirstTold(b, silentB, codeB)
    ensures FirstTold(a + b, silentA && silentB, if silentA then codeB else codeA)
  {
  }

  lemma {:induction false} FirstPart(b: Block, meta: Meta, depth: int, number: nat, paused: bool)
    requires WellFormed(b) && Plain(b)
    ensures FirstTold(BlockParts(b, meta, depth, number, paused), Silent(b), CodeFirst(b))
    decreases b
  {
    hide AllParts, AllSilent, AnyCodeFirst, AllWellFormed, AllPlain, FirstTold;
    if b.Single? {
      LeafFirst(b.token, meta, depth, paused);
    } else {
      var c := b.open.ttype.container;
      var parts := AllParts(b.inside, meta, depth + Depth(c), 1, paused || c == Table);
      if c !in {Table, Heading} {
        FirstOfAll(b.inside, meta, depth + Depth(c), 1, paused);
      }
      FinishFirst(b.open, parts, Extract(Flat(b), meta, paused), meta, depth, number,
                  AllSilent(b.inside), AnyCodeFirst(b.inside));
    }
  }

  lemma {:induction false} FirstOfAll(bs: seq<Block>, meta: Meta, depth: int, number: nat, paused: bool)
    requires AllWellFormed(bs) && AllPlain(bs)
    ensures FirstTold(AllParts(bs, meta, depth, number, paused), AllSilent(bs), AnyCodeFirst(bs))
    decreases bs
  {
    hide BlockParts, Silent, CodeFirst, WellFormed, Plain;
    if bs != [] {
      hide FirstTold;
      FirstPart(bs[0], meta, depth, number, paused);
      FirstOfAll(bs[1..], meta, depth, NextNumber(bs[0], number), paused);
      FirstJoin(BlockParts(bs[0], meta, depth, number, paused),
                AllParts(bs[1..], meta, depth, NextNumber(bs[0], number), paused),
                Silent(bs[0]), CodeFirst(bs[0]), AllSilent(bs[1..]), AnyCodeFirst(bs[1..]));
    }
  }

  lemma LeafFirst(token: Token, meta: Meta, depth: int, paused: bool)
    requires token.ttype.Leaf?
    ensures FirstTold(LeafParts(token, meta, depth, paused), false, token.ttype in {Leaf(CodeBlock), Leaf(Fence)})
  {
    hide CodeText, DefinitionText, Extract;
  }

  lemma FinishFirst(open: Token, parts: seq<Part>, images: seq<Part>, meta: Meta, depth: int, number: nat,
                    silent: bool, code: bool)
    requires open.ttype.Open? && open.ttype.container !in {Thead, Tbody, Tr, Th, Td}
    requires open.ttype.container !in {Table, Heading} ==> FirstTold(parts, silent, code)
    ensures var merged := open.ttype.container in {Heading, Table, ListItem};
            FirstTold(Finish(open, parts, images, meta, depth, number), !merged && silent, !merged && code)
  {
    hide Indent, IndentAll, Marker, AllText, Contents, JoinLines, Repeat, HeadingLevel;
  }

  /** Part by part, md_nesting is the number of lists and quotes around the token the part
      comes from, and md_source_map is the lines of that token; images have no stamp. */
  lemma {:induction false} NestingCountsListsAndQuotes(b: Block, meta: Meta, depth: int, number: nat, paused: bool)
    requires WellFormed(b) && Plain(b)
    ensures Carry(Stamps(BlockParts(b, meta, depth, number, paused)), StampSources(b, depth))
    decreases b
  {
    hide Carry, Stamps, LeafParts, AllParts, AllStampSources, AllWellFormed, AllPlain, AllSilent, AnyCodeFirst;
    if b.Single? {
      LeafStamps(b.token, meta, depth, paused);
    } else {
      hide Finish;
      var c := b.open.ttype.container;
      var parts := AllParts(b.inside, meta, depth + Depth(c), 1, paused || c == Table);
      if c !in {Table, Heading} {
        NestingCountsInAll(b.inside, meta, depth + Depth(c), 1, paused);
        FirstOfAll(b.inside, meta, depth + Depth(c), 1, paused);
      }
      FinishStamps(b.open, parts, Flat(b), meta, depth, number, paused, AllStampSources(b.inside, depth + Depth(c)));
    }
  }

  lemma {:induction false} NestingCountsInAll(bs: seq<Block>, meta: Meta, depth: int, number: nat, paused: bool)
    requires AllWellFormed(bs) && AllPlain(bs)
    ensures Carry(Stamps(AllParts(bs, meta, depth, number, paused)), AllStampSources(bs, depth))
    decreases bs
  {
    hide Stamps, BlockParts, StampSources, WellFormed, Plain;
    if bs == [] {
      StampsUnfold([]);
    } else {
      hide Carry;
      NestingCountsListsAndQuotes(bs[0], meta, depth, number, paused);
      NestingCountsInAll(bs[1..], meta, depth, NextNumber(bs[0], number), paused);
      var first := BlockParts(bs[0], meta, depth, number, paused);
      var rest := AllParts(bs[1..], meta, depth, NextNumber(bs[0], number), paused);
      StampsJoin(first, rest);
      CarryJoin(Stamps(first), StampSources(bs[0], depth), Stamps(rest), AllStampSources(bs[1..], depth));
    }
  }

  lemma {:induction false} FinishStamps(open: Token, parts: seq<Part>, tokens: seq<Token>, meta: Meta, depth: int, number: nat, paused: bool,
                     sources: seq<(Token, int)>)
    requires open.ttype.Open? && open.ttype.container !in {Thead, Tbody, Tr, Th, Td}
    requires open.ttype.container !in {Table, Heading} ==> Carry(Stamps(parts), sources)
    ensures var c := open.ttype.container;
            Carry(Stamps(Finish(open, parts, Extract(tokens, meta, paused), meta, depth, number)),
                  if c in {Heading, Table} then [(open, depth)]
                  else (if c == ListItem && (parts == [] || !IsText(parts[0])) then [(open, depth)] else []) + sources)
  {
    hide Stamps, Carry, ItemParts, QuoteAll, AllText, Contents, JoinLines, Repeat, HeadingLevel, Images, Pictures;
    var r := Finish(open, parts, Extract(tokens, meta, paused), meta, depth, number);
    var c := open.ttype.container;
    MarkCarries(open, meta, depth);
    assert [] + sources == sources;
    if c == Blockquote {
      QuoteStamps(open.markup + " ", parts);
    } else if c == ListItem {
      ItemStamps(open, parts, meta, depth, number, sources);
    } else if c == Heading {
      OneStamp(r[0], [], meta, true);
      assert r == [r[0]] + [];
    } else if c == Table {
      OneStamp(r[0], Images(tokens), meta, paused);
    }
  }

  // ----- Images -----

  /** The positions whose tokens are searched for images while reading from i: inline
      tokens, and all tokens of a table once it is read, unless extraction is paused. */
  function Searched(tokens: seq<Token>, i: nat, meta: Meta, st: State): seq<nat>
    decreases |tokens| - i, 0
  {
    if i >= |tokens| then []
    else if tokens[i].ttype.Open? then
      var c := tokens[i].ttype.container;
      var inner := SearchedUntil(tokens, Close(c), i + 1, meta, Enter(c, st));
      inner + if c == Table && !st.paused then Positions(i, Read(tokens, i, meta, st).pos) else []
    else if tokens[i].ttype == Leaf(Inline) && !st.paused then [i]
    else []
  }

  function SearchedUntil(tokens: seq<Token>, close: TokenType, i: nat, meta: Meta, st: State): seq<nat>
    requires i <= |tokens|
    decreases |tokens| - i, 1
  {
    if i >= |tokens| || tokens[i].ttype == close then []
    else
      var first := Read(tokens, i, meta, st);
      Searched(tokens, i, meta, st) + SearchedUntil(tokens, close, first.pos, meta, first.st)
  }

  function Positions(a: nat, b: nat): (r: seq<nat>)
    ensures |r| == (if a < b then b - a else 0) && forall k :: 0 <= k < |r| ==> r[k] == a + k
    decreases b - a
  {
    if a >= b then [] else [a] + Positions(a + 1, b)
  }

  /** Strictly rising positions from a up to but not including b. */
  predicate Rising(s: seq<nat>, a: nat, b: nat) {
    && (forall k :: 0 <= k < |s| ==> a <= s[k] < b)
    && (forall k :: 0 < k < |s| ==> s[k - 1] < s[k])
  }

  lemma RisingJoin(s: seq<nat>, t: seq<nat>, a: nat, b: nat, c: nat)
    requires Rising(s, a, b) && Rising(t, b, c) && a <= b <= c
    ensures Rising(s + t, a, c)
  {
  }

  /** On any token stream every token is searched at most once, in order, so an image need
      not be marked as extracted. */
  lemma {:induction false} TokensAreSearchedOnce(tokens: seq<Token>, i: nat, meta: Meta, st: State)
    ensures Rising(Searched(tokens, i, meta, st), i, Read(tokens, i, meta, st).pos)
    ensures st.paused ==> Searched(tokens, i, meta, st) == []
    decreases |tokens| - i, 0
  {
    hide Read, ReadUntil, SearchedUntil, Finish, Extract, LeafParts, Rising;
    if i >= |tokens| {
      ReadNothing(tokens, i, meta, st);
      NothingRises(i, i);
    } else if tokens[i].ttype.Open? {
      var c := tokens[i].ttype.container;
      var next := Read(tokens, i, meta, st).pos;
      ReadOpen(tokens, i, meta, st);
      TokensAreSearchedOnceInside(tokens, Close(c), i + 1, meta, Enter(c, st));
      var inner := SearchedUntil(tokens, Close(c), i + 1, meta, Enter(c, st));
      NothingRises(i, i + 1);
      RisingJoin([], inner, i, i + 1, next);
      assert [] + inner == inner && inner + [] == inner;
      if c == Table {
        assert inner == [];
        AllPositionsRise(i, next);
        assert [] + Positions(i, next) == Positions(i, next);
      }
    } else {
      ReadLeaf(tokens, i, meta, st);
      OneRises(i);
      NothingRises(i, i + 1);
    }
  }

  lemma NothingRises(a: nat, b: nat)
    ensures Rising([], a, b)
  {
  }

  lemma OneRises(i: nat)
    ensures Rising([i], i, i + 1)
  {
  }

  lemma {:induction false} AllPositionsRise(a: nat, b: nat)
    ensures Rising(Positions(a, b), a, b)
  {
  }

  lemma {:induction false} TokensAreSearchedOnceInside(tokens: seq<Token>, close: TokenType, i: nat, meta: Meta, st: State)
    requires i <= |tokens|
    ensures Rising(SearchedUntil(tokens, close, i, meta, st), i, ReadUntil(tokens, close, i, meta, st).pos)
    ensures st.paused ==> SearchedUntil(tokens, close, i, meta, st) == []
    decreases |tokens| - i, 1
  {
    hide Read, ReadUntil, Searched, Rising;
    ReadUntilUnfolds(tokens, close, i, meta, st);
    if i < |tokens| && tokens[i].ttype != close {
      var first := Read(tokens, i, meta, st);
      ContextIsRestored(tokens, i, meta, st);
      TokensAreSearchedOnce(tokens, i, meta, st);
      TokensAreSearchedOnceInside(tokens, close, first.pos, meta, first.st);
      RisingJoin(Searched(tokens, i, meta, st), SearchedUntil(tokens, close, first.pos, meta, first.st), i, first.pos,
                 ReadUntil(tokens, close, i, meta, st).pos);
    } else {
      NothingRises(i, i);
      NothingRises(i, i + 1);
    }
  }

  function PicturesIn(parts: seq<Part>): seq<Part> {
    if parts == [] then []
    else (if parts[0].kind.Picture? then [parts[0]] else []) + PicturesIn(parts[1..])
  }

  /** The images of a tree in document order, but for those in headings; a table
      gives all it holds. */
  function KeptImages(b: Block): seq<Image> {
    match b
    case Single(token) => if token.ttype == Leaf(Inline) then Found(token.children) else []
    case Nested(open, inside, _) =>
      if open.ttype == Open(Table) then Images(Flat(b))
      else if open.ttype.Open? && open.ttype.container in {Heading, Thead, Tbody, Tr, Th, Td} then []
      else KeptImagesAll(inside)
  }

  function KeptImagesAll(bs: seq<Block>): seq<Image> {
    if bs == [] then [] else KeptImages(bs[0]) + KeptImagesAll(bs[1..])
  }

  lemma {:induction false} PicturesInJoin(a: seq<Part>, b: seq<Part>)
    ensures PicturesIn(a + b) == PicturesIn(a) + PicturesIn(b)
  {
    hide PicturesIn;
    if a == [] {
      NoPictures();
      assert a + b == b;
    } else {
      assert (a + b)[1..] == a[1..] + b;
      PicturesInJoin(a[1..], b);
      PicturesInUnfolds(a);
      PicturesInUnfolds(a + b);
    }
  }

  lemma {:induction false} PicturesInUnfolds(parts: seq<Part>)
    requires parts != []
    ensures PicturesIn(parts) == (if parts[0].kind.Picture? then [parts[0]] else []) + PicturesIn(parts[1..])
  {
  }

  lemma {:induction false} PicturesJoin(a: seq<Image>, b: seq<Image>, meta: Meta)
    ensures Pictures(a + b, meta) == Pictures(a, meta) + Pictures(b, meta)
  {
  }

  lemma {:induction false} OnlyPictures(images: seq<Image>, meta: Meta)
    ensures PicturesIn(Pictures(images, meta)) == Pictures(images, meta)
  {
    if images != [] {
      OnlyPictures(images[1..], meta);
      assert Pictures(images, meta)[1..] == Pictures(images[1..], meta);
    }
  }

  /** Rewriting texts leaves the images as they are. */
  lemma {:induction false} SamePictures(a: seq<Part>, b: seq<Part>)
    requires |a| == |b|
    requires forall i :: 0 <= i < |a| ==> a[i].kind.Picture? == b[i].kind.Picture? && (a[i].kind.Picture? ==> a[i] == b[i])
    ensures PicturesIn(a) == PicturesIn(b)
  {
    if a != [] {
      SamePictures(a[1..], b[1..]);
    }
  }

  lemma {:induction false} ItemPictures(open: Token, parts: seq<Part>, meta: Meta, depth: int, number: nat)
    ensures PicturesIn(ItemParts(open, parts, meta, depth, number)) == PicturesIn(parts)
  {
    hide Indent, Marker, Repeat, IndentAll;
    if parts == [] {
    } else {
      var first := MarkFirst(Marker(open, number), parts[0], Stamp(meta, open, depth));
      FirstPictures(Marker(open, number), parts[0], Stamp(meta, open, depth));
      hide MarkFirst;
      RestPictures(parts[1..]);
      PicturesInJoin(first, IndentAll(parts[1..]));
    }
  }

  lemma FirstPictures(marker: string, p: Part, stamp: Meta)
    ensures PicturesIn(MarkFirst(marker, p, stamp)) == if p.kind.Picture? then [p] else []
  {
    hide Indent, Repeat;
    if IsText(p) {
    } else {
      assert MarkFirst(marker, p, stamp)[1..] == [p];
      assert PicturesIn([p]) == (if p.kind.Picture? then [p] else []);
    }
  }

  lemma {:induction false} RestPictures(parts: seq<Part>)
    ensures PicturesIn(IndentAll(parts)) == PicturesIn(parts)
  {
    hide Indent, PicturesIn;
    SamePictures(IndentAll(parts), parts);
  }

  lemma {:induction false} QuotePictures(prefix: string, parts: seq<Part>)
    ensures PicturesIn(QuoteAll(prefix, parts)) == PicturesIn(parts)
  {
    hide Indent, PicturesIn;
    SamePictures(QuoteAll(prefix, parts), parts);
  }

  lemma {:induction false} OneTextHasNoPictures(p: Part, rest: seq<Part>)
    requires !p.kind.Picture?
    ensures PicturesIn([p] + rest) == PicturesIn(rest)
  {
    assert ([p] + rest)[1..] == rest;
  }

  lemma {:induction false} FinishPictures(open: Token, parts: seq<Part>, images: seq<Part>, meta: Meta, depth: int, number: nat)
    requires open.ttype.Open?
    ensures PicturesIn(Finish(open, parts, images, meta, depth, number)) ==
            if open.ttype.container == Table then PicturesIn(images)
            else if open.ttype.container in {Heading, Thead, Tbody, Tr, Th, Td} then []
            else PicturesIn(parts)
  {
    hide PicturesIn, ItemParts, QuoteAll, AllText, Contents, JoinLines, Repeat, HeadingLevel, Cells;
    assert PicturesIn([]) == [] by { NoPictures(); }
    match open.ttype.container
    case Blockquote => QuotePictures(open.markup + " ", parts);
    case ListItem => ItemPictures(open, parts, meta, depth, number);
    case Table => OneTextHasNoPictures(Finish(open, parts, images, meta, depth, number)[0], images);
    case Paragraph =>
    case OrderedList =>
    case BulletList =>
    case _ =>
      var r := Finish(open, parts, images, meta, depth, number);
      if r != [] {
        OneTextHasNoPictures(r[0], []);
        assert r == [r[0]] + [];
      }
  }

  lemma NoPictures()
    ensures PicturesIn([]) == []
  {
  }

  lemma OneTokenImages(token: Token)
    ensures Images([token]) == Found(token.children)
  {
    hide Found;
    assert [token][1..] == [] && Images([]) == [];
    assert Found(token.children) + [] == Found(token.children);
  }

  lemma {:induction false} LeafPictures(token: Token, meta: Meta, depth: int, paused: bool)
    ensures PicturesIn(LeafParts(token, meta, depth, paused))
            == if token.ttype == Leaf(Inline) && !paused then Pictures(Found(token.children), meta) else []
  {
    hide PicturesIn, CodeText, DefinitionText, Found, Images, Pictures;
    NoPictures();
    var r := LeafParts(token, meta, depth, paused);
    if r != [] {
      OneTextHasNoPictures(r[0], r[1..]);
      assert r == [r[0]] + r[1..];
    }
    if token.ttype == Leaf(Inline) && !paused {
      OneTokenImages(token);
      OnlyPictures(Found(token.children), meta);
      assert r[1..] == Pictures(Found(token.children), meta);
    }
  }

  /** Pausing inside tables makes every image come out exactly once, in document
      order: with its inline token, or after the outermost table around it. Only the
      images in headings are dropped. Nothing comes out while paused. */
  lemma {:induction false} ImagesComeOutOnce(b: Block, meta: Meta, depth: int, number: nat, paused: bool)
    requires WellFormed(b)
    ensures PicturesIn(BlockParts(b, meta, depth, number, paused)) == if paused then [] else Pictures(KeptImages(b), meta)
    decreases b
  {
    hide PicturesIn, LeafParts, Finish, AllParts, KeptImagesAll, AllWellFormed, Flat, Images, Pictures, Found;
    if b.Single? {
      LeafPictures(b.token, meta, depth, paused);
      assert Pictures([], meta) == [];
    } else {
      var c := b.open.ttype.container;
      var parts := AllParts(b.inside, meta, depth + Depth(c), 1, paused || c == Table);
      ImagesComeOutOnceInAll(b.inside, meta, depth + Depth(c), 1, paused || c == Table);
      FinishPictures(b.open, parts, Extract(Flat(b), meta, paused), meta, depth, number);
      OnlyPictures(Images(Flat(b)), meta);
      NoPictures();
      assert Pictures([], meta) == [];
    }
  }

  lemma {:induction false} ImagesComeOutOnceInAll(bs: seq<Block>, meta: Meta, depth: int, number: nat, paused: bool)
    requires AllWellFormed(bs)
    ensures PicturesIn(AllParts(bs, meta, depth, number, paused)) == if paused then [] else Pictures(KeptImagesAll(bs), meta)
    decreases bs
  {
    hide PicturesIn, BlockParts, KeptImages, WellFormed, Pictures;
    if bs == [] {
      NoPictures();
      assert Pictures([], meta) == [];
    } else {
      ImagesComeOutOnce(bs[0], meta, depth, number, paused);
      ImagesComeOutOnceInAll(bs[1..], meta, depth, NextNumber(bs[0], number), paused);
      PicturesInJoin(BlockParts(bs[0], meta, depth, number, paused),
                     AllParts(bs[1..], meta, depth, NextNumber(bs[0], number), paused));
      PicturesJoin(KeptImages(bs[0]), KeptImagesAll(bs[1..]), meta);
    }
  }
}
