/** What becomes of the text: the converter, which rewrites the parts inside a container when
    it closes, makes what a reading of the tree from outside makes, where each container only
    hands its marks down. No text is lost, repeated or moved. */
module MdTextLaws {
  import opened Common
  import opened TextLines
  import opened MdTokens
  import opened MdBlocks
  import opened MdBlockLaws

  /** A part that is no image: text, a heading if it has a level, or code, which is never marked. */
  datatype Passage = Prose(content: string, level: Option<nat>) | Verbatim(content: string, lang: Option<string>)

  /** What stands in front of the lines of a first part (its first line and the others), and of
      all lines of later parts. */
  datatype Marks = Marks(first: string, more: string, later: string)

  const NONE := Marks("", "", "")

  function Later(marks: Marks): Marks {
    Marks(marks.later, marks.later, marks.later)
  }

  /** The marks of a container inside others: theirs come first. */
  function Inside(outer: Marks, inner: Marks): Marks {
    Marks(outer.first + inner.first, outer.more + inner.more, outer.later + inner.later)
  }

  predicate SingleLines(marks: Marks) {
    OneLine(marks.first) && OneLine(marks.more) && OneLine(marks.later)
  }

  function PassageOf(p: Part): Passage {
    match p.kind
    case Text => Prose(OrEmpty(p.content), None)
    case Title(level) => Prose(OrEmpty(p.content), Some(level))
    case Code(lang) => Verbatim(OrEmpty(p.content), lang)
    case Picture(_) => Verbatim(OrEmpty(p.content), None)
  }

  function Passages(parts: seq<Part>): seq<Passage> {
    if parts == [] then []
    else (if parts[0].kind.Picture? then [] else [PassageOf(parts[0])]) + Passages(parts[1..])
  }

  function Put(p: Passage, first: string, more: string): Passage {
    if p.Prose? then Prose(Indent(p.content, first, more), p.level) else p
  }

  /** Marks the passages of one block or several. */
  function PutAll(ps: seq<Passage>, marks: Marks): (r: seq<Passage>)
    ensures |r| == |ps|
    ensures forall i :: 0 <= i < |ps| ==>
              r[i] == if i == 0 then Put(ps[0], marks.first, marks.more) else Put(ps[i], marks.later, marks.later)
  {
    seq(|ps|, i requires 0 <= i < |ps| =>
      if i == 0 then Put(ps[0], marks.first, marks.more) else Put(ps[i], marks.later, marks.later))
  }

  // ----- Trees as the parser makes them -----

  predicate IsInline(b: Block) {
    b.Single? && b.token.ttype == Leaf(Inline)
  }

  predicate IsCell(b: Block) {
    && b.Nested? && (b.open.ttype == Open(Th) || b.open.ttype == Open(Td))
    && forall c <- b.inside :: IsInline(c)
  }

  predicate IsRow(b: Block) {
    b.Nested? && b.open.ttype == Open(Tr) && b.inside != [] && forall c <- b.inside :: IsCell(c)
  }

  /** A head of one row, and perhaps a body of rows. */
  predicate IsGrid(inside: seq<Block>) {
    && 1 <= |inside| <= 2
    && inside[0].Nested? && inside[0].open.ttype == Open(Thead) && |inside[0].inside| == 1 && IsRow(inside[0].inside[0])
    && (|inside| == 2 ==>
          inside[1].Nested? && inside[1].open.ttype == Open(Tbody) && forall r <- inside[1].inside :: IsRow(r))
  }

  /** Headings and cells hold inline tokens, tables rows and cells; tokens have handlers. */
  predicate Tidy(b: Block) {
    match b
    case Single(token) => token.ttype.Leaf?
    case Nested(open, inside, _) =>
      && open.ttype.Open? && OneLine(open.markup)
      && (match open.ttype.container
          case Heading => forall c <- inside :: IsInline(c)
          case Table => IsGrid(inside)
          case Blockquote => AllTidy(inside)
          case Paragraph => AllTidy(inside)
          case OrderedList => AllTidy(inside)
          case BulletList => AllTidy(inside)
          case ListItem => AllTidy(inside)
          case _ => false)
  }

  predicate AllTidy(bs: seq<Block>) {
    bs == [] || (Tidy(bs[0]) && AllTidy(bs[1..]))
  }

  lemma {:induction false} TidyIsPlain(b: Block)
    requires Tidy(b)
    ensures Plain(b)
    decreases b
  {
    if b.Nested? && b.open.ttype.container !in {Table, Heading} {
      AllTidyArePlain(b.inside);
    }
  }

  lemma {:induction false} AllTidyArePlain(bs: seq<Block>)
    requires AllTidy(bs)
    ensures AllPlain(bs)
    decreases bs
  {
    if bs != [] {
      TidyIsPlain(bs[0]);
      AllTidyArePlain(bs[1..]);
    }
  }

  // ----- The reading from outside -----

  function InlineText(bs: seq<Block>): string {
    if bs == [] then "" else (if bs[0].Single? then bs[0].token.content else "") + InlineText(bs[1..])
  }

  function RowText(cells: seq<Block>): string {
    if cells == [] then "|"
    else "| " + EscapeCell(if cells[0].Nested? then InlineText(cells[0].inside) else "") + " " + RowText(cells[1..])
  }

  function Inner(b: Block): seq<Block> {
    if b.Nested? then b.inside else []
  }

  function RowTexts(rows: seq<Block>): seq<string> {
    if rows == [] then [] else [RowText(Inner(rows[0]))] + RowTexts(rows[1..])
  }

  function Rule(columns: nat): string {
    if columns == 0 then "|" else "|---" + Rule(columns - 1)
  }

  function GridText(inside: seq<Block>): string
    requires IsGrid(inside)
  {
    var head := Inner(inside[0].inside[0]);
    RowText(head) + "\n" + Rule(|head|) + if |inside| == 2 then "\n" + JoinLines(RowTexts(inside[1].inside)) else ""
  }

  function Fill(c: char, n: nat): (r: string)
    ensures |r| == n && forall i :: 0 <= i < n ==> r[i] == c
  {
    seq(n, _ => c)
  }

  /** The level of a heading: underlined by = or -, or the number of its marks. */
  function TitleMarks(markup: string): string {
    if markup == "=" then "#" else if markup == "-" then "##" else Fill('#', |markup|)
  }

  function LinkText(token: Token): string {
    "[" + (if token.name.Some? then token.name.value else "None") + "]: "
    + (if token.url.Some? then token.url.value else "None")
    + if token.title.Some? && token.title.value != "" then " (" + token.title.value + ")" else ""
  }

  /** The text that a token of its own stands for. */
  function LeafText(token: Token): Passage {
    match token.ttype
    case Leaf(CodeBlock) => Verbatim(CodeText(token.content, ""), None)
    case Leaf(Fence) => Verbatim(CodeText(token.content, token.info), if token.info == "" then None else Some(token.info))
    case Leaf(Hr) => Prose(token.markup, None)
    case Leaf(Definition) => Prose(LinkText(token), None)
    case _ => Prose(token.content, None)
  }

  function ItemMarker(open: Token, number: nat): string {
    (if open.info != "" then Decimal(number) else "") + open.markup + " "
  }

  /** The passages of a block behind the marks around it. */
  function Expected(b: Block, marks: Marks, number: nat): seq<Passage>
    requires Tidy(b)
  {
    match b
    case Single(token) => [Put(LeafText(token), marks.first, marks.more)]
    case Nested(open, inside, _) =>
      match open.ttype.container
      case Heading => 
        var title := TitleMarks(open.markup);
        [Put(Prose(title + " " + InlineText(inside), Some(|title|)), marks.first, marks.more)]
      case Table => [Put(Prose(GridText(inside), None), marks.first, marks.more)]
      case Blockquote =>
        var quote := open.markup + " ";
        AllExpected(inside, Inside(marks, Marks(quote, quote, quote)), 1)
      case ListItem =>
        var marker := ItemMarker(open, number);
        if AllSilent(inside) then [Put(Prose(marker, None), marks.first, marks.more)]
        else if AnyCodeFirst(inside) then
          [Put(Prose(marker, None), marks.first, marks.more)]
          + AllExpected(inside, Inside(Later(marks), Marks("    ", "    ", "    ")), 1)
        else AllExpected(inside, Inside(marks, Marks(marker, Fill(' ', |marker|), "    ")), 1)
      case Paragraph => AllExpected(inside, marks, 1)
      case OrderedList => AllExpected(inside, marks, 1)
      case BulletList => AllExpected(inside, marks, 1)
      case _ => []
  }

  function AllExpected(bs: seq<Block>, marks: Marks, number: nat): seq<Passage>
    requires AllTidy(bs)
  {
    if bs == [] then []
    else Expected(bs[0], marks, number)
         + AllExpected(bs[1..], if Silent(bs[0]) then marks else Later(marks), NextNumber(bs[0], number))
  }

  // ----- Marks -----

  lemma {:induction false} IndentInside(text: string, a: string, b: string, c: string, d: string)
    requires OneLine(a) && OneLine(b)
    ensures Indent(Indent(text, a, b), c, d) == Indent(text, c + a, d + b)
  {
    hide Lines, JoinLines, OneLine;
    IndentMarksEveryLine(text, a, b);
    var ls, marked := Lines(text), Lines(Indent(text, a, b));
    assert [c + marked[0]] + PrefixAll(marked[1..], d) == [c + a + ls[0]] + PrefixAll(ls[1..], d + b) by {
      forall i | 0 <= i < |ls| - 1
        ensures PrefixAll(marked[1..], d)[i] == PrefixAll(ls[1..], d + b)[i]
      {
        assert d + (b + ls[i + 1]) == d + b + ls[i + 1];
      }
      assert c + (a + ls[0]) == c + a + ls[0];
    }
  }

  lemma {:induction false} IndentByNothing(text: string)
    ensures Indent(text, "", "") == text
  {
    hide Lines, JoinLines;
    var ls := Lines(text);
    JoinLinesOfText(text);
    var same := ["" + ls[0]] + PrefixAll(ls[1..], "");
    forall i | 0 <= i < |ls|
      ensures same[i] == ls[i]
    {
      assert "" + ls[i] == ls[i];
    }
    assert same == ls;
  }

  lemma {:induction false} PutInside(p: Passage, a: string, b: string, c: string, d: string)
    requires OneLine(a) && OneLine(b)
    ensures Put(Put(p, a, b), c, d) == Put(p, c + a, d + b)
  {
    hide Indent;
    if p.Prose? {
      IndentInside(p.content, a, b, c, d);
    }
  }

  lemma {:induction false} PutAllInside(ps: seq<Passage>, outer: Marks, inner: Marks)
    requires SingleLines(inner)
    ensures PutAll(PutAll(ps, inner), outer) == PutAll(ps, Inside(outer, inner))
  {
    hide Put;
    forall i | 0 <= i < |ps|
      ensures PutAll(PutAll(ps, inner), outer)[i] == PutAll(ps, Inside(outer, inner))[i]
    {
      if i == 0 {
        PutInside(ps[0], inner.first, inner.more, outer.first, outer.more);
      } else {
        PutInside(ps[i], inner.later, inner.later, outer.later, outer.later);
      }
    }
  }

  lemma {:induction false} PutAllJoin(a: seq<Passage>, b: seq<Passage>, marks: Marks)
    ensures PutAll(a + b, marks) == PutAll(a, marks) + PutAll(b, if a == [] then marks else Later(marks))
  {
    hide Put;
    if a == [] {
      assert a + b == b;
    }
  }

  lemma {:induction false} PutNone(ps: seq<Passage>)
    ensures PutAll(ps, NONE) == ps
  {
    hide Indent;
    forall i | 0 <= i < |ps|
      ensures PutAll(ps, NONE)[i] == ps[i]
    {
      IndentByNothing(ps[i].content);
    }
  }

  // ----- Parts and passages -----

  /** A picture never comes first, and every other part has a content. */
  predicate Regular(parts: seq<Part>) {
    && (parts != [] ==> !parts[0].kind.Picture?)
    && (forall i :: 0 <= i < |parts| && !parts[i].kind.Picture? ==> parts[i].content.Some?)
  }

  lemma {:induction false} RegularJoin(a: seq<Part>, b: seq<Part>)
    requires Regular(a) && Regular(b)
    ensures Regular(a + b)
  {
  }

  lemma {:induction false} PassagesUnfold(parts: seq<Part>)
    ensures parts == [] ==> Passages(parts) == []
    ensures parts != [] ==>
              Passages(parts) == (if parts[0].kind.Picture? then [] else [PassageOf(parts[0])]) + Passages(parts[1..])
  {
  }

  lemma {:induction false} PassagesJoin(a: seq<Part>, b: seq<Part>)
    ensures Passages(a + b) == Passages(a) + Passages(b)
  {
    hide Passages, PassageOf;
    PassagesUnfold(a);
    if a == [] {
      assert a + b == b;
    } else {
      assert (a + b)[1..] == a[1..] + b && (a + b)[0] == a[0];
      PassagesUnfold(a + b);
      PassagesJoin(a[1..], b);
    }
  }

  lemma {:induction false} OnePassage(p: Part)
    requires !p.kind.Picture?
    ensures Passages([p]) == [PassageOf(p)]
  {
    hide PassageOf;
    PassagesUnfold([p]);
    PassagesUnfold([p][1..]);
  }

  lemma {:induction false} NoPassages(images: seq<Image>, meta: Meta)
    ensures Passages(Pictures(images, meta)) == []
    ensures forall p <- Pictures(images, meta) :: p.kind.Picture?
  {
    hide Passages;
    PassagesUnfold(Pictures(images, meta));
    if images != [] {
      assert Pictures(images, meta)[1..] == Pictures(images[1..], meta);
      NoPassages(images[1..], meta);
    }
  }

  /** One part and images after it. */
  lemma {:induction false} WithImages(p: Part, tokens: seq<Token>, meta: Meta, paused: bool)
    requires !p.kind.Picture? && p.content.Some?
    ensures var parts := [p] + Extract(tokens, meta, paused);
            Regular(parts) && Passages(parts) == [PassageOf(p)]
  {
    hide Passages, PassageOf, Pictures, Images;
    OnePassage(p);
    NoPassages(Images(tokens), meta);
    PassagesUnfold([]);
    PassagesJoin([p], Extract(tokens, meta, paused));
    forall i | 0 <= i < |Extract(tokens, meta, paused)|
      ensures Extract(tokens, meta, paused)[i].kind.Picture?
    {
      assert Extract(tokens, meta, paused)[i] in Extract(tokens, meta, paused);
    }
  }

  /** Marking every part is marking every passage. */
  lemma {:induction false} MarkedPassages(before: seq<Part>, after: seq<Part>, mark: string)
    requires |after| == |before| && Regular(before)
    requires forall i :: 0 <= i < |before| ==>
               after[i].kind == before[i].kind
               && (!before[i].kind.Picture? ==>
                     after[i].content.Some? && PassageOf(after[i]) == Put(PassageOf(before[i]), mark, mark))
    ensures Regular(after) && Passages(after) == PutAll(Passages(before), Marks(mark, mark, mark))
    decreases |before|
  {
    hide Passages, PassageOf, Put;
    MarkedRest(before, after, mark);
  }

  lemma {:induction false} MarkedRest(before: seq<Part>, after: seq<Part>, mark: string)
    requires |after| == |before|
    requires forall i :: 0 <= i < |before| ==>
               after[i].kind == before[i].kind
               && (!before[i].kind.Picture? ==> PassageOf(after[i]) == Put(PassageOf(before[i]), mark, mark))
    ensures Passages(after) == PutAll(Passages(before), Marks(mark, mark, mark))
  {
    hide Passages, PassageOf, Put;
    PassagesUnfold(before);
    PassagesUnfold(after);
    if before != [] {
      MarkedRest(before[1..], after[1..], mark);
      var own := if before[0].kind.Picture? then [] else [PassageOf(before[0])];
      PutAllJoin(own, Passages(before[1..]), Marks(mark, mark, mark));
    }
  }

  lemma {:induction false} QuotePassages(prefix: string, parts: seq<Part>)
    requires Regular(parts)
    ensures var r := QuoteAll(prefix, parts);
            Regular(r) && Passages(r) == PutAll(Passages(parts), Marks(prefix, prefix, prefix))
  {
    hide Passages, Indent;
    MarkedPassages(parts, QuoteAll(prefix, parts), prefix);
  }

  lemma {:induction false} IndentPassages(parts: seq<Part>)
    requires forall i :: 0 <= i < |parts| && !parts[i].kind.Picture? ==> parts[i].content.Some?
    ensures var r := IndentAll(parts);
            && (forall i :: 0 <= i < |r| && !r[i].kind.Picture? ==> r[i].content.Some?)
            && Passages(r) == PutAll(Passages(parts), Marks("    ", "    ", "    "))
  {
    hide Passages, Indent;
    MarkedRest(parts, IndentAll(parts), "    ");
  }

  // ----- What containers make of their passages -----

  lemma {:induction false} RepeatIsFill(c: char, n: nat)
    ensures Repeat([c], n) == Fill(c, n)
  {
    if n > 0 {
      RepeatIsFill(c, n - 1);
      assert Fill(c, n) == [c] + Fill(c, n - 1);
    }
  }

  lemma {:induction false} MarkerIsItemMarker(token: Token, number: nat)
    ensures Marker(token, number) == ItemMarker(token, number)
  {
    hide Decimal;
  }

  /** A list item: the marker on the first text, or as a passage of its own. */
  lemma {:induction false} ItemPassages(token: Token, parts: seq<Part>, meta: Meta, nesting: int, number: nat)
    requires Regular(parts)
    ensures var r, marker, ps := ItemParts(token, parts, meta, nesting, number), ItemMarker(token, number), Passages(parts);
            && Regular(r)
            && Passages(r)
               == if parts == [] then [Prose(marker, None)]
                  else if !IsText(parts[0]) then [Prose(marker, None)] + PutAll(ps, Marks("    ", "    ", "    "))
                  else PutAll(ps, Marks(marker, Fill(' ', |marker|), "    "))
  {
    hide Passages, Indent, Decimal, Repeat, IndentAll, ItemMarker, Marker;
    MarkerIsItemMarker(token, number);
    var marker := Marker(token, number);
    var mark := Part(Text, Some(marker), Stamp(meta, token, nesting));
    OnePassage(mark);
    if parts != [] {
      var first, rest := parts[0], parts[1..];
      PassagesUnfold(parts);
      IndentPassages(rest);
      RepeatIsFill(' ', |marker|);
      var begun := MarkFirst(marker, first, Stamp(meta, token, nesting));
      PassagesJoin(begun, IndentAll(rest));
      if IsText(first) {
        OnePassage(begun[0]);
        assert begun == [begun[0]];
        PutAllJoin([PassageOf(first)], Passages(rest), Marks(marker, Fill(' ', |marker|), "    "));
      } else {
        assert begun == [mark] + [first];
        PassagesJoin([mark], [first]);
        OnePassage(first);
        PutAllJoin([PassageOf(first)], Passages(rest), Marks("    ", "    ", "    "));
      }
    }
  }

  lemma {:induction false} InlineParts(bs: seq<Block>, meta: Meta, depth: int, number: nat, paused: bool)
    requires AllWellFormed(bs) && forall c <- bs :: IsInline(c)
    ensures AllText(AllParts(bs, meta, depth, number, paused)) == InlineText(bs)
    decreases bs
  {
    hide LeafParts;
    if bs != [] {
      assert bs[0] in bs && forall c <- bs[1..] :: c in bs;
      InlineParts(bs[1..], meta, depth, number, paused);
      InlineLeaf(bs[0].token, meta, depth, paused);
      AllTextJoin(LeafParts(bs[0].token, meta, depth, paused), AllParts(bs[1..], meta, depth, number, paused));
    }
  }

  lemma {:induction false} InlineLeaf(token: Token, meta: Meta, depth: int, paused: bool)
    requires token.ttype == Leaf(Inline)
    ensures AllText(LeafParts(token, meta, depth, paused)) == token.content
  {
    hide Pictures, Images;
    var p := Part(Text, Some(token.content), Stamp(meta, token, depth));
    NoText(Images([token]), meta);
    AllTextJoin([p], Extract([token], meta, paused));
    assert AllText([p]) == token.content + AllText([p][1..]);
  }

  lemma {:induction false} NoText(images: seq<Image>, meta: Meta)
    ensures AllText(Pictures(images, meta)) == ""
  {
    if images != [] {
      assert Pictures(images, meta)[1..] == Pictures(images[1..], meta);
      NoText(images[1..], meta);
    }
  }

  lemma {:induction false} AllTextJoin(a: seq<Part>, b: seq<Part>)
    ensures AllText(a + b) == AllText(a) + AllText(b)
  {
    if a == [] {
      assert a + b == b;
    } else {
      assert (a + b)[1..] == a[1..] + b;
      AllTextJoin(a[1..], b);
    }
  }

  /** A row's cells make one part each, and the row one line of them. */
  lemma {:induction false} CellParts(cells: seq<Block>, meta: Meta, depth: int, number: nat, paused: bool)
    requires AllWellFormed(cells) && forall c <- cells :: IsCell(c)
    ensures var parts := AllParts(cells, meta, depth, number, paused);
            |parts| == |cells| && Cells(parts) + "|" == RowText(cells)
    decreases cells
  {
    hide BlockParts, AllParts, WellFormed, AllWellFormed, Cells, RowText, IsCell, Flat, FlatAll;
    if cells == [] {
      NoCells(meta, depth, number, paused);
    } else {
      AllPartsUnfolds(cells, meta, depth, number, paused);
      assert cells[0] in cells && forall c <- cells[1..] :: c in cells;
      OneCell(cells[0], meta, depth, number, paused);
      var next := NextNumber(cells[0], number);
      CellParts(cells[1..], meta, depth, next, paused);
      CellsStep(BlockParts(cells[0], meta, depth, number, paused), AllParts(cells[1..], meta, depth, next, paused), cells);
    }
  }

  lemma {:induction false} NoCells(meta: Meta, depth: int, number: nat, paused: bool)
    ensures AllWellFormed([]) && AllParts([], meta, depth, number, paused) == []
    ensures Cells([]) + "|" == RowText([])
  {
  }

  lemma {:induction false} CellsStep(own: seq<Part>, rest: seq<Part>, cells: seq<Block>)
    requires |own| == 1 && cells != [] && IsCell(cells[0]) && own[0].content == Some(InlineText(cells[0].inside))
    requires Cells(rest) + "|" == RowText(cells[1..])
    ensures Cells(own + rest) + "|" == RowText(cells)
  {
    hide EscapeCell, InlineText;
    assert (own + rest)[1..] == rest && (own + rest)[0] == own[0];
    var cell := EscapeCell(InlineText(cells[0].inside));
    assert "| " + (cell + " ") + Cells(rest) + "|" == "| " + cell + " " + (Cells(rest) + "|");
  }

  lemma {:induction false} OneCell(cell: Block, meta: Meta, depth: int, number: nat, paused: bool)
    requires WellFormed(cell) && IsCell(cell)
    ensures var parts := BlockParts(cell, meta, depth, number, paused);
            |parts| == 1 && parts[0].content == Some(InlineText(cell.inside))
  {
    hide AllParts, AllText, InlineText, AllWellFormed;
    assert AllWellFormed(cell.inside);
    InlineParts(cell.inside, meta, depth, 1, paused);
  }

  lemma {:induction false} RowPart(row: Block, meta: Meta, depth: int, number: nat, paused: bool)
    requires WellFormed(row) && IsRow(row)
    ensures var parts := BlockParts(row, meta, depth, number, paused);
            && |parts| == 1 && parts[0].content == Some(RowText(row.inside))
            && parts[0].meta.columns == Some(|row.inside|)
  {
    hide AllParts, Cells, RowText, AllWellFormed;
    assert AllWellFormed(row.inside);
    CellParts(row.inside, meta, depth, 1, paused);
  }

  lemma {:induction false} RowsParts(rows: seq<Block>, meta: Meta, depth: int, number: nat, paused: bool)
    requires AllWellFormed(rows) && forall r <- rows :: IsRow(r)
    ensures MdTokens.Contents(AllParts(rows, meta, depth, number, paused)) == RowTexts(rows)
    decreases rows
  {
    hide BlockParts, RowText;
    if rows != [] {
      assert rows[0] in rows && forall r <- rows[1..] :: r in rows;
      RowPart(rows[0], meta, depth, number, paused);
      RowsParts(rows[1..], meta, depth, number, paused);
      var own := BlockParts(rows[0], meta, depth, number, paused);
      assert (own + AllParts(rows[1..], meta, depth, number, paused))[1..] == AllParts(rows[1..], meta, depth, number, paused);
    }
  }

  lemma {:induction false} RuleIsRepeat(n: nat)
    ensures Repeat("|---", n) + "|" == Rule(n)
  {
    if n > 0 {
      RuleIsRepeat(n - 1);
    }
  }

  lemma {:induction false} OneOf(b: Block, meta: Meta, depth: int, number: nat, paused: bool)
    requires WellFormed(b)
    ensures AllWellFormed([b])
    ensures AllParts([b], meta, depth, number, paused) == BlockParts(b, meta, depth, number, paused)
  {
    hide BlockParts, WellFormed;
    assert [b][1..] == [];
  }

  lemma {:induction false} HeadPart(head: Block, meta: Meta, depth: int, number: nat, paused: bool)
    requires WellFormed(head) && head.Nested? && head.open.ttype == Open(Thead)
    requires |head.inside| == 1 && IsRow(head.inside[0])
    ensures var parts := BlockParts(head, meta, depth, number, paused); var cells := Inner(head.inside[0]);
            |parts| == 1 && parts[0].content == Some(RowText(cells) + "\n" + Rule(|cells|))
  {
    hide AllParts, RowText, Repeat, Rule, AllWellFormed;
    var row := head.inside[0];
    assert head.inside == [row] && AllWellFormed(head.inside);
    assert WellFormed(row) by { FirstWellFormed(head.inside); }
    OneOf(row, meta, depth, 1, paused);
    RowPart(row, meta, depth, 1, paused);
    RuleIsRepeat(|row.inside|);
    var text, rule := RowText(row.inside), Repeat("|---", |row.inside|);
    assert text + "\n" + rule + "|" == text + "\n" + (rule + "|");
  }

  lemma {:induction false} FirstWellFormed(bs: seq<Block>)
    requires AllWellFormed(bs) && bs != []
    ensures WellFormed(bs[0]) && AllWellFormed(bs[1..])
  {
  }

  lemma {:induction false} BodyPart(body: Block, meta: Meta, depth: int, number: nat, paused: bool)
    requires WellFormed(body) && body.Nested? && body.open.ttype == Open(Tbody) && forall r <- body.inside :: IsRow(r)
    ensures var parts := BlockParts(body, meta, depth, number, paused);
            |parts| == 1 && parts[0].content == Some(JoinLines(RowTexts(body.inside)))
  {
    hide AllParts, RowTexts, MdTokens.Contents, JoinLines, AllWellFormed;
    assert AllWellFormed(body.inside);
    RowsParts(body.inside, meta, depth, 1, paused);
  }

  /** The text of a table. */
  lemma {:induction false} GridParts(inside: seq<Block>, meta: Meta, depth: int, number: nat, paused: bool)
    requires AllWellFormed(inside) && IsGrid(inside)
    ensures JoinLines(MdTokens.Contents(AllParts(inside, meta, depth, number, paused))) == GridText(inside)
  {
    hide BlockParts, RowText, RowTexts, Rule, WellFormed, IsRow;
    var head := inside[0];
    FirstWellFormed(inside);
    HeadPart(head, meta, depth, number, paused);
    var own := BlockParts(head, meta, depth, number, paused);
    var cells := Inner(head.inside[0]);
    var text := RowText(cells) + "\n" + Rule(|cells|);
    if |inside| == 1 {
      assert inside == [head];
      OneOf(head, meta, depth, number, paused);
      OneContent(own);
    } else {
      var body := inside[1];
      assert inside[1..] == [body];
      FirstWellFormed(inside[1..]);
      BodyPart(body, meta, depth, number, paused);
      OneOf(body, meta, depth, number, paused);
      var rest := BlockParts(body, meta, depth, number, paused);
      assert AllParts(inside, meta, depth, number, paused) == own + rest;
      TwoContents(own, rest);
    }
  }

  lemma {:induction false} OneContent(parts: seq<Part>)
    requires |parts| == 1 && parts[0].content.Some?
    ensures JoinLines(MdTokens.Contents(parts)) == parts[0].content.value
  {
    assert parts[1..] == [];
  }

  lemma {:induction false} TwoContents(a: seq<Part>, b: seq<Part>)
    requires |a| == 1 && |b| == 1 && a[0].content.Some? && b[0].content.Some?
    ensures JoinLines(MdTokens.Contents(a + b)) == a[0].content.value + "\n" + b[0].content.value
  {
    var x, y := a[0].content.value, b[0].content.value;
    assert (a + b)[1..] == b && b[1..] == [];
    assert MdTokens.Contents(b) == [y] + MdTokens.Contents([]) == [y];
    assert MdTokens.Contents(a + b) == [x] + [y];
    assert ([x] + [y])[1..] == [y];
  }

  lemma {:induction false} LeafPassages(token: Token, meta: Meta, depth: int, paused: bool)
    requires token.ttype.Leaf?
    ensures var parts := LeafParts(token, meta, depth, paused);
            Regular(parts) && Passages(parts) == [LeafText(token)]
  {
    hide CodeText, Passages, Images, Pictures;
    var p := LeafParts(token, meta, depth, paused)[0];
    if token.ttype.leaf == Inline {
      WithImages(p, [token], meta, paused);
    } else {
      OnePassage(p);
      assert LeafParts(token, meta, depth, paused) == [p];
    }
  }

  // ----- The converter keeps the text -----

  lemma {:induction false} InnerMarks(open: Token, number: nat)
    requires OneLine(open.markup)
    ensures var quote, marker := open.markup + " ", ItemMarker(open, number);
            OneLine(quote) && OneLine(marker) && OneLine(Fill(' ', |marker|)) && OneLine("    ")
  {
    DecimalIsOneLine(number);
  }

  lemma {:induction false} DecimalIsOneLine(n: nat)
    ensures OneLine(Decimal(n))
  {
    if n >= 10 {
      DecimalIsOneLine(n / 10);
    }
  }

  /** The passages of a block behind any marks are those of the tree read from outside. */
  lemma {:induction false} BlockKeepsText(b: Block, marks: Marks, meta: Meta, depth: int, number: nat, paused: bool)
    requires WellFormed(b) && Tidy(b)
    ensures var parts := BlockParts(b, meta, depth, number, paused);
            Regular(parts) && PutAll(Passages(parts), marks) == Expected(b, marks, number)
    decreases b, 0
  {
    hide Passages, AllParts, LeafParts, AllExpected, AllTidy, AllWellFormed, Put, Regular, LeafText;
    if b.Single? {
      LeafPassages(b.token, meta, depth, paused);
    } else {
      hide Finish, Expected;
      NestedKeepsText(b, marks, meta, depth, number, paused);
    }
  }

  lemma {:induction false} NestedKeepsText(b: Block, marks: Marks, meta: Meta, depth: int, number: nat, paused: bool)
    requires WellFormed(b) && Tidy(b) && b.Nested?
    ensures var parts := BlockParts(b, meta, depth, number, paused);
            Regular(parts) && PutAll(Passages(parts), marks) == Expected(b, marks, number)
    decreases b.inside, 2
  {
    hide Passages, AllParts, AllExpected, AllTidy, AllWellFormed, Put, Regular;
    var open, inside := b.open, b.inside;
    var c := open.ttype.container;
    assert AllWellFormed(inside);
    match c
    case Heading => HeadingKeepsText(b, marks, meta, depth, number, paused);
    case Table => TableKeepsText(b, marks, meta, depth, number, paused);
    case Blockquote =>
      var quote, parts := open.markup + " ", AllParts(inside, meta, depth + 1, 1, paused);
      InnerMarks(open, number);
      AllKeepText(inside, Inside(marks, Marks(quote, quote, quote)), meta, depth + 1, 1, paused);
      QuotePassages(quote, parts);
      PutAllInside(Passages(parts), marks, Marks(quote, quote, quote));
    case ListItem => ItemKeepsText(b, marks, meta, depth, number, paused);
    case Paragraph => AllKeepText(inside, marks, meta, depth, 1, paused);
    case OrderedList => AllKeepText(inside, marks, meta, depth + 1, 1, paused);
    case BulletList => AllKeepText(inside, marks, meta, depth + 1, 1, paused);
    case _ =>
  }

  lemma {:induction false} HeadingKeepsText(b: Block, marks: Marks, meta: Meta, depth: int, number: nat, paused: bool)
    requires WellFormed(b) && Tidy(b) && b.Nested? && b.open.ttype == Open(Heading)
    ensures var parts := BlockParts(b, meta, depth, number, paused);
            Regular(parts) && PutAll(Passages(parts), marks) == Expected(b, marks, number)
  {
    hide Passages, AllParts, AllWellFormed, Put, InlineText, AllText, Repeat, AllTidy;
    assert AllWellFormed(b.inside);
    InlineParts(b.inside, meta, depth, 1, paused);
    RepeatIsFill('#', HeadingLevel(b.open));
    TitleMarksAre(b.open);
    OnePassage(BlockParts(b, meta, depth, number, paused)[0]);
  }

  lemma {:induction false} TitleMarksAre(open: Token)
    ensures Fill('#', HeadingLevel(open)) == TitleMarks(open.markup)
  {
  }

  lemma {:induction false} TableKeepsText(b: Block, marks: Marks, meta: Meta, depth: int, number: nat, paused: bool)
    requires WellFormed(b) && Tidy(b) && b.Nested? && b.open.ttype == Open(Table)
    ensures var parts := BlockParts(b, meta, depth, number, paused);
            Regular(parts) && PutAll(Passages(parts), marks) == Expected(b, marks, number)
  {
    hide Passages, AllParts, AllWellFormed, Put, GridText, MdTokens.Contents, JoinLines, Images, Pictures, IsGrid, Flat, AllTidy, Regular;
    assert AllWellFormed(b.inside);
    GridParts(b.inside, meta, depth, 1, true);
    WithImages(BlockParts(b, meta, depth, number, paused)[0], Flat(b), meta, paused);
  }

  lemma {:induction false} ItemUnfolds(b: Block, marks: Marks, meta: Meta, depth: int, number: nat, paused: bool)
    requires WellFormed(b) && Tidy(b) && b.Nested? && b.open.ttype == Open(ListItem)
    ensures AllWellFormed(b.inside) && AllTidy(b.inside) && OneLine(b.open.markup)
    ensures var parts := AllParts(b.inside, meta, depth, 1, paused);
            BlockParts(b, meta, depth, number, paused) == ItemParts(b.open, parts, meta, depth, number)
    ensures var marker := ItemMarker(b.open, number);
            AllTidy(b.inside) && Expected(b, marks, number)
            == if AllSilent(b.inside) then [Put(Prose(marker, None), marks.first, marks.more)]
               else if AnyCodeFirst(b.inside) then
                 [Put(Prose(marker, None), marks.first, marks.more)]
                 + AllExpected(b.inside, Inside(Later(marks), Marks("    ", "    ", "    ")), 1)
               else AllExpected(b.inside, Inside(marks, Marks(marker, Fill(' ', |marker|), "    ")), 1)
  {
    hide AllParts, AllExpected, Put, ItemParts, ItemMarker, AllSilent, AnyCodeFirst, OneLine, AllTidy, AllWellFormed;
  }

  lemma {:induction false} ItemKeepsText(b: Block, marks: Marks, meta: Meta, depth: int, number: nat, paused: bool)
    requires WellFormed(b) && Tidy(b) && b.Nested? && b.open.ttype == Open(ListItem)
    ensures var parts := BlockParts(b, meta, depth, number, paused);
            Regular(parts) && PutAll(Passages(parts), marks) == Expected(b, marks, number)
    decreases b.inside, 1
  {
    hide Passages, AllParts, AllExpected, AllTidy, AllWellFormed, Put, Regular, ItemParts, ItemMarker, AllSilent,
         AnyCodeFirst, OneLine, BlockParts, Expected, Tidy, WellFormed;
    var open, inside := b.open, b.inside;
    var marker := ItemMarker(open, number);
    ItemUnfolds(b, marks, meta, depth, number, paused);
    var parts := AllParts(inside, meta, depth, 1, paused);
    var four, own := Marks("    ", "    ", "    "), Marks(marker, Fill(' ', |marker|), "    ");
    InnerMarks(open, number);
    AllTidyArePlain(inside);
    FirstOfAll(inside, meta, depth, 1, paused);
    AllKeepText(inside, Inside(Later(marks), four), meta, depth, 1, paused);
    AllKeepText(inside, Inside(marks, own), meta, depth, 1, paused);
    ItemPassages(open, parts, meta, depth, number);
    PutAllInside(Passages(parts), Later(marks), four);
    PutAllInside(Passages(parts), marks, own);
    PutAllJoin([Prose(marker, None)], PutAll(Passages(parts), four), marks);
  }

  lemma {:induction false} AllKeepText(bs: seq<Block>, marks: Marks, meta: Meta, depth: int, number: nat, paused: bool)
    requires AllWellFormed(bs) && AllTidy(bs)
    ensures var parts := AllParts(bs, meta, depth, number, paused);
            Regular(parts) && PutAll(Passages(parts), marks) == AllExpected(bs, marks, number)
    decreases bs, 0
  {
    hide Passages, BlockParts, Expected, Tidy, WellFormed, Put, Silent, Regular;
    if bs == [] {
      PassagesUnfold([]);
      NoPartsRegular();
    } else {
      var first := BlockParts(bs[0], meta, depth, number, paused);
      var next := NextNumber(bs[0], number);
      var rest := AllParts(bs[1..], meta, depth, next, paused);
      var after := if Silent(bs[0]) then marks else Later(marks);
      BlockKeepsText(bs[0], marks, meta, depth, number, paused);
      AllKeepText(bs[1..], after, meta, depth, next, paused);
      RegularJoin(first, rest);
      PassagesJoin(first, rest);
      TidyIsPlain(bs[0]);
      FirstPart(bs[0], meta, depth, number, paused);
      SilentPassages(first);
      PutAllJoin(Passages(first), Passages(rest), marks);
    }
  }

  lemma {:induction false} NoPartsRegular()
    ensures Regular([])
  {
  }

  lemma {:induction false} SilentPassages(parts: seq<Part>)
    requires Regular(parts)
    ensures Passages(parts) == [] <==> parts == []
  {
    hide PassageOf;
  }

  /** On the tokens of any tidy trees the texts of the parts are those of the trees, each once
      and in order, every line behind the marks of the containers around it. */
  lemma {:induction false} TextIsKept(bs: seq<Block>, meta: Meta)
    requires AllWellFormed(bs) && AllTidy(bs)
    ensures Passages(ReadAll(FlatAll(bs), 0, meta, START)) == AllExpected(bs, NONE, 1)
  {
    hide Passages, ReadAll, FlatAll, AllParts, AllExpected, AllTidy, AllWellFormed, Regular;
    ConverterIsStructural(bs, meta);
    AllKeepText(bs, NONE, meta, 0, 1, false);
    PutNone(Passages(AllParts(bs, meta, 0, 1, false)));
  }

  // ----- Line by line -----

  /** What the tokens of a tree say, in document order: one text a part. A list marker that is
      a part of its own stands for no text. */
  function Sources(b: Block): seq<string>
    requires Tidy(b)
  {
    match b
    case Single(token) => [LeafText(token).content]
    case Nested(open, inside, _) =>
      match open.ttype.container
      case Heading => [InlineText(inside)]
      case Table => [GridText(inside)]
      case ListItem => (if AllSilent(inside) || AnyCodeFirst(inside) then [""] else []) + AllSources(inside)
      case Blockquote => AllSources(inside)
      case Paragraph => AllSources(inside)
      case OrderedList => AllSources(inside)
      case BulletList => AllSources(inside)
      case _ => []
  }

  function AllSources(bs: seq<Block>): seq<string>
    requires AllTidy(bs)
  {
    if bs == [] then [] else Sources(bs[0]) + AllSources(bs[1..])
  }

  predicate EndsWith(line: string, end: string) {
    |end| <= |line| && line[|line| - |end|..] == end
  }

  /** The passage is the text, each line of it behind something; code is just the text. */
  ghost predicate Says(p: Passage, source: string) {
    if p.Verbatim? then p.content == source
    else
      |Lines(p.content)| == |Lines(source)|
      && forall i :: 0 <= i < |Lines(source)| ==> EndsWith(Lines(p.content)[i], Lines(source)[i])
  }

  ghost predicate AllSay(ps: seq<Passage>, sources: seq<string>) {
    |ps| == |sources| && forall i :: 0 <= i < |ps| ==> Says(ps[i], sources[i])
  }

  lemma {:induction false} AllSayJoin(a: seq<Passage>, x: seq<string>, b: seq<Passage>, y: seq<string>)
    requires AllSay(a, x) && AllSay(b, y)
    ensures AllSay(a + b, x + y)
  {
    hide Says;
  }

  lemma {:induction false} PutSays(p: Passage, source: string, first: string, more: string)
    requires Says(p, source) && OneLine(first) && OneLine(more)
    ensures Says(Put(p, first, more), source)
  {
    hide Lines, Indent, OneLine;
    if p.Prose? {
      IndentMarksEveryLine(p.content, first, more);
    }
  }

  lemma {:induction false} SaysItself(p: Passage)
    ensures Says(p, p.content)
  {
    hide Lines;
  }

  /** A first line may have a mark of its own. */
  lemma {:induction false} SaysBehind(mark: string, text: string, level: Option<nat>)
    requires OneLine(mark)
    ensures Says(Prose(mark + text, level), text)
  {
    hide Lines, JoinLines;
    assert OneLine("");
    hide OneLine;
    IndentMarksEveryLine(text, mark, "");
    var ls := Lines(text);
    JoinLinesOfText(text);
    var marked := [mark + ls[0]] + PrefixAll(ls[1..], "");
    forall i | 0 < i < |ls|
      ensures marked[i] == ls[i]
    {
      assert "" + ls[i] == ls[i];
    }
    assert marked == [mark + ls[0]] + ls[1..] && [ls[0]] + ls[1..] == ls;
    MarkedStart(mark, ls[0], ls[1..]);
  }

  lemma {:induction false} MarkedStart(mark: string, first: string, rest: seq<string>)
    ensures JoinLines([mark + first] + rest) == mark + JoinLines([first] + rest)
  {
    if rest != [] {
      JoinLinesAppend([mark + first], rest);
      JoinLinesAppend([first], rest);
      assert mark + first + "\n" + JoinLines(rest) == mark + (first + "\n" + JoinLines(rest));
    }
  }

  lemma {:induction false} MarkerSays(open: Token, number: nat)
    requires OneLine(open.markup)
    ensures Says(Prose(ItemMarker(open, number), None), "")
  {
    hide Decimal, OneLine;
    InnerMarks(open, number);
    var marker := ItemMarker(open, number);
    SaysBehind(marker, "", None);
    assert marker + "" == marker;
  }

  lemma {:induction false} FillIsOneLine(markup: string)
    ensures OneLine(TitleMarks(markup)) && OneLine(TitleMarks(markup) + " ")
  {
  }

  lemma {:induction false} InsideIsSingle(outer: Marks, inner: Marks)
    requires SingleLines(outer) && SingleLines(inner)
    ensures SingleLines(Inside(outer, inner)) && SingleLines(Later(outer))
  {
  }

  /** Every text of the tree is in the reading, once, in order, and line by line. */
  lemma {:induction false} ExpectedSays(b: Block, marks: Marks, number: nat)
    requires Tidy(b) && SingleLines(marks)
    ensures AllSay(Expected(b, marks, number), Sources(b))
    decreases b
  {
    hide AllExpected, AllSources, AllTidy, Says, Put, OneLine, GridText, InlineText, LeafText, AllSilent, AnyCodeFirst, ItemMarker;
    if b.Single? {
      SaysItself(LeafText(b.token));
      PutSays(LeafText(b.token), LeafText(b.token).content, marks.first, marks.more);
    } else {
      var open, inside := b.open, b.inside;
      InnerMarks(open, number);
      match open.ttype.container
      case Heading =>
        var title := TitleMarks(open.markup);
        FillIsOneLine(open.markup);
        SaysBehind(title + " ", InlineText(inside), Some(|title|));
        PutSays(Prose(title + " " + InlineText(inside), Some(|title|)), InlineText(inside), marks.first, marks.more);
      case Table =>
        SaysItself(Prose(GridText(inside), None));
        PutSays(Prose(GridText(inside), None), GridText(inside), marks.first, marks.more);
      case Blockquote =>
        var quote := open.markup + " ";
        InsideIsSingle(marks, Marks(quote, quote, quote));
        AllExpectedSay(inside, Inside(marks, Marks(quote, quote, quote)), 1);
      case ListItem => ItemSays(b, marks, number);
      case Paragraph => AllExpectedSay(inside, marks, 1);
      case OrderedList => AllExpectedSay(inside, marks, 1);
      case BulletList => AllExpectedSay(inside, marks, 1);
      case _ =>
    }
  }

  lemma {:induction false} ItemSays(b: Block, marks: Marks, number: nat)
    requires b.Nested? && Tidy(b) && SingleLines(marks) && b.open.ttype == Open(ListItem)
    ensures AllSay(Expected(b, marks, number), Sources(b))
    decreases b.inside, 1
  {
    hide AllExpected, AllSources, AllTidy, Says, Put, OneLine, AllSilent, AnyCodeFirst, ItemMarker;
    var open, inside := b.open, b.inside;
    var marker := ItemMarker(open, number);
    var four, own := Marks("    ", "    ", "    "), Marks(marker, Fill(' ', |marker|), "    ");
    InnerMarks(open, number);
    MarkerSays(open, number);
    PutSays(Prose(marker, None), "", marks.first, marks.more);
    InsideIsSingle(marks, own);
    InsideIsSingle(Later(marks), four);
    AllExpectedSay(inside, Inside(Later(marks), four), 1);
    AllExpectedSay(inside, Inside(marks, own), 1);
    if AllSilent(inside) {
      SilentSaysNothing(inside);
    }
    AllSayJoin([Put(Prose(marker, None), marks.first, marks.more)], [""],
               AllExpected(inside, Inside(Later(marks), four), 1), AllSources(inside));
  }

  lemma {:induction false} AllExpectedSay(bs: seq<Block>, marks: Marks, number: nat)
    requires AllTidy(bs) && SingleLines(marks)
    ensures AllSay(AllExpected(bs, marks, number), AllSources(bs))
    decreases bs, 0
  {
    hide Expected, Sources, Tidy, Says, OneLine, Silent;
    if bs != [] {
      var after := if Silent(bs[0]) then marks else Later(marks);
      ExpectedSays(bs[0], marks, number);
      AllExpectedSay(bs[1..], after, NextNumber(bs[0], number));
      AllSayJoin(Expected(bs[0], marks, number), Sources(bs[0]),
                 AllExpected(bs[1..], after, NextNumber(bs[0], number)), AllSources(bs[1..]));
    }
  }

  lemma {:induction false} SilentSaysNothing(bs: seq<Block>)
    requires AllTidy(bs) && AllSilent(bs)
    ensures AllSources(bs) == []
    decreases bs
  {
    if bs != [] {
      if bs[0].Nested? {
        SilentSaysNothing(bs[0].inside);
      }
      SilentSaysNothing(bs[1..]);
    }
  }

  /** The converter conserves text: its parts other than images are the texts of the tree, as
      many and in the same order, each line behind marks and code as it is. */
  lemma {:induction false} TextIsConserved(bs: seq<Block>, meta: Meta)
    requires AllWellFormed(bs) && AllTidy(bs)
    ensures AllSay(Passages(ReadAll(FlatAll(bs), 0, meta, START)), AllSources(bs))
  {
    hide Passages, ReadAll, FlatAll, AllExpected, AllTidy, AllWellFormed, AllSay, AllSources;
    TextIsKept(bs, meta);
    AllExpectedSay(bs, NONE, 1);
  }

  /** A paragraph of one inline token is that token's content. */
  lemma {:induction false} ParagraphIsItsText(open: Token, token: Token, close: Token, meta: Meta)
    requires open.ttype == Open(Paragraph) && close.ttype == Close(Paragraph) && token.ttype == Leaf(Inline)
    requires OneLine(open.markup)
    ensures Passages(ReadAll([open, token, close], 0, meta, START)) == [Prose(token.content, None)]
  {
    hide Passages, ReadAll, OneLine;
    var b := Nested(open, [Single(token)], close);
    assert [Single(token)][1..] == [] && [b][1..] == [];
    assert WellFormed(Single(token)) && AllWellFormed([Single(token)]) && AllWellFormed([b]);
    assert Tidy(Single(token)) && AllTidy([Single(token)]) && AllTidy([b]);
    assert FlatAll([Single(token)]) == [token] && FlatAll([b]) == [open, token, close];
    TextIsKept([b], meta);
    IndentByNothing(token.content);
    var said := [Prose(token.content, None)];
    assert Expected(Single(token), NONE, 1) == said;
    assert AllExpected([Single(token)], NONE, 1) == said + [];
    assert AllExpected([b], NONE, 1) == said + [] + [];
  }
}
