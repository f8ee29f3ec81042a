/** The markdown token stream, the parts made from it, and what the converter makes
    of a token stream read from a cursor, well nested or not. */
module MdTokens {
  import opened Common
  import opened TextLines

  datatype Container =
    | Blockquote | Heading | Paragraph | OrderedList | BulletList | ListItem
    | Table | Thead | Tbody | Tr | Th | Td

  datatype LeafType = CodeBlock | Fence | Inline | Hr | HtmlBlock | Definition

  /** Other stands for the token types no handler knows. */
  datatype TokenType = Open(container: Container) | Close(container: Container) | Leaf(leaf: LeafType) | Other(name: string)

  type Rows = (nat, nat)

  datatype Image = Image(url: string, alt: string, title: Option<string>, lines: Option<Rows>)

  /** A token inside an inline token: an image, or something else, with children of its own. */
  datatype Child = Child(image: Option<Image>, children: seq<Child>)

  datatype Token = Token(
    ttype: TokenType, content: string, markup: string, info: string, lines: Option<Rows>, children: seq<Child>,
    name: Option<string>, url: Option<string>, title: Option<string>)

  datatype Meta = Meta(lines: Option<Rows>, nesting: Option<int>, columns: Option<nat>, lang: Option<string>)

  datatype Kind = Text | Title(level: nat) | Code(lang: Option<string>) | Picture(image: Image)

  datatype Part = Part(kind: Kind, content: Option<string>, meta: Meta)

  // ----- Text -----

  function Repeat(s: string, n: nat): string {
    if n == 0 then "" else s + Repeat(s, n - 1)
  }

  function Decimal(n: nat): string {
    if n < 10 then [('0' as int + n) as char] else Decimal(n / 10) + [('0' as int + n % 10) as char]
  }

  function OrEmpty(s: Option<string>): string {
    if s.Some? then s.value else ""
  }

  function PrefixAll(ls: seq<string>, prefix: string): (r: seq<string>)
    ensures |r| == |ls| && forall i :: 0 <= i < |ls| ==> r[i] == prefix + ls[i]
  {
    if ls == [] then [] else [prefix + ls[0]] + PrefixAll(ls[1..], prefix)
  }

  /** The first line after one prefix, the others after another. */
  function Indent(text: string, first: string, rest: string): string {
    var ls := Lines(text);
    JoinLines([first + ls[0]] + PrefixAll(ls[1..], rest))
  }

  predicate Contains(s: string, part: string) {
    part <= s || (s != "" && Contains(s[1..], part))
  }

  /** At least three backticks, up to ten more while the code holds as many. */
  function Backticks(code: string, n: nat, tries: nat): string
    decreases tries
  {
    if tries > 0 && Contains(code, Repeat("`", n)) then Backticks(code, n + 1, tries - 1) else Repeat("`", n)
  }

  function Strip(s: string): string {
    if s != "" && s[0] in WHITESPACE then Strip(s[1..]) else RStrip(s)
  }

  function CodeText(code: string, lang: string): string {
    var ticks := Backticks(code, 3, 10);
    ticks + lang + "\n" + Strip(code) + "\n" + ticks
  }

  function EscapeCell(text: string): string {
    if text == "" then ""
    else
      (match text[0]
       case '|' => "\\|"
       case '\r' => ""
       case '\n' => "<br>"
       case c => [c]) + EscapeCell(text[1..])
  }

  // ----- Parts out of the parts inside -----

  predicate IsText(p: Part) {
    p.kind.Text? || p.kind.Title?
  }

  function Stamp(meta: Meta, token: Token, nesting: int): Meta {
    meta.(lines := token.lines, nesting := Some(nesting))
  }

  function Quote(prefix: string, p: Part): Part {
    if IsText(p) && p.content.Some? then p.(content := Some(Indent(p.content.value, prefix, prefix))) else p
  }

  function QuoteAll(prefix: string, parts: seq<Part>): (r: seq<Part>)
    ensures |r| == |parts| && forall i :: 0 <= i < |parts| ==> r[i] == Quote(prefix, parts[i])
  {
    if parts == [] then [] else [Quote(prefix, parts[0])] + QuoteAll(prefix, parts[1..])
  }

  const INDENTION := "    "

  function IndentPart(p: Part): Part {
    if IsText(p) then p.(content := Some(Indent(OrEmpty(p.content), INDENTION, INDENTION))) else p
  }

  function IndentAll(parts: seq<Part>): (r: seq<Part>)
    ensures |r| == |parts| && forall i :: 0 <= i < |parts| ==> r[i] == IndentPart(parts[i])
  {
    if parts == [] then [] else [IndentPart(parts[0])] + IndentAll(parts[1..])
  }

  /** All contents, one after the other. */
  function AllText(parts: seq<Part>): string {
    if parts == [] then "" else OrEmpty(parts[0].content) + AllText(parts[1..])
  }

  function Contents(parts: seq<Part>): seq<string> {
    if parts == [] then []
    else (if parts[0].content.Some? then [parts[0].content.value] else []) + Contents(parts[1..])
  }

  function Cells(parts: seq<Part>): string {
    if parts == [] then ""
    else "| " + (if parts[0].content.Some? then EscapeCell(parts[0].content.value) + " " else "") + Cells(parts[1..])
  }

  function Numbered(token: Token): bool {
    token.ttype == Open(ListItem) && token.info != ""
  }

  function Marker(token: Token, number: nat): string {
    (if token.info != "" then Decimal(number) else "") + token.markup + " "
  }

  function HeadingLevel(token: Token): nat {
    if token.markup == "=" then 1 else if token.markup == "-" then 2 else |token.markup|
  }

  function MarkFirst(marker: string, p: Part, stamp: Meta): seq<Part> {
    if IsText(p) then [p.(content := Some(Indent(OrEmpty(p.content), marker, Repeat(" ", |marker|))))]
    else [Part(Text, Some(marker), stamp), p]
  }

  /** The marker goes in front of the first text; everything else is indented. */
  function ItemParts(token: Token, parts: seq<Part>, meta: Meta, nesting: int, number: nat): seq<Part> {
    var marker, stamp := Marker(token, number), Stamp(meta, token, nesting);
    if parts == [] then [Part(Text, Some(marker), stamp)]
    else MarkFirst(marker, parts[0], stamp) + IndentAll(parts[1..])
  }

  function TheadParts(parts: seq<Part>, meta: Meta): seq<Part> {
    if parts == [] || parts[0].meta.columns in {None, Some(0)} then []
    else [Part(Text, Some(OrEmpty(parts[0].content) + "\n" + Repeat("|---", parts[0].meta.columns.value) + "|"), meta)]
  }

  function RowParts(parts: seq<Part>, meta: Meta): seq<Part> {
    if parts == [] then [] else [Part(Text, Some(Cells(parts) + "|"), meta.(columns := Some(|parts|)))]
  }

  /** What a container makes of the parts inside it. */
  function Finish(token: Token, parts: seq<Part>, images: seq<Part>, meta: Meta, nesting: int, number: nat): seq<Part>
    requires token.ttype.Open?
  {
    match token.ttype.container
    case Blockquote => QuoteAll(token.markup + " ", parts)
    case Heading =>
      var level := HeadingLevel(token);
      [Part(Title(level), Some(Repeat("#", level) + " " + AllText(parts)), Stamp(meta, token, nesting))]
    case Paragraph => parts
    case OrderedList => parts
    case BulletList => parts
    case ListItem => ItemParts(token, parts, meta, nesting, number)
    case Table => [Part(Text, Some(JoinLines(Contents(parts))), Stamp(meta, token, nesting))] + images
    case Thead => TheadParts(parts, meta)
    case Tbody => [Part(Text, Some(JoinLines(Contents(parts))), meta)]
    case Tr => RowParts(parts, meta)
    case Th => [Part(Text, Some(AllText(parts)), meta)]
    case Td => [Part(Text, Some(AllText(parts)), meta)]
  }

  function Pictures(images: seq<Image>, meta: Meta): (r: seq<Part>)
    ensures |r| == |images|
    ensures forall i :: 0 <= i < |images| ==> r[i] == Part(Picture(images[i]), None, meta.(lines := images[i].lines))
  {
    if images == [] then []
    else [Part(Picture(images[0]), None, meta.(lines := images[0].lines))] + Pictures(images[1..], meta)
  }

  /** The images among the children of a token, each after what is found below it. */
  function Found(children: seq<Child>): seq<Image> {
    if children == [] then []
    else
      FoundBelow(children[0].children)
      + (if children[0].image.Some? then [children[0].image.value] else [])
      + Found(children[1..])
  }

  /** Below a child its children are searched like tokens: theirs are looked at, not they
      themselves. */
  function FoundBelow(tokens: seq<Child>): seq<Image> {
    if tokens == [] then [] else Found(tokens[0].children) + FoundBelow(tokens[1..])
  }

  function Images(tokens: seq<Token>): seq<Image> {
    if tokens == [] then [] else Found(tokens[0].children) + Images(tokens[1..])
  }

  /** The image parts of a stretch of tokens; none while extraction is paused. */
  function Extract(tokens: seq<Token>, meta: Meta, paused: bool): seq<Part> {
    if paused then [] else Pictures(Images(tokens), meta)
  }

  function ShownOr(o: Option<string>): string {
    if o.Some? then o.value else "None"
  }

  function DefinitionText(token: Token): string {
    "[" + ShownOr(token.name) + "]: " + ShownOr(token.url)
    + if OrEmpty(token.title) != "" then " (" + token.title.value + ")" else ""
  }

  /** The parts of a token that stands alone. */
  function LeafParts(token: Token, meta: Meta, nesting: int, paused: bool): seq<Part> {
    var stamp := Stamp(meta, token, nesting);
    match token.ttype
    case Leaf(CodeBlock) => [Part(Code(None), Some(CodeText(token.content, "")), stamp)]
    case Leaf(Fence) =>
      if token.info == "" then [Part(Code(None), Some(CodeText(token.content, "")), stamp)]
      else [Part(Code(Some(token.info)), Some(CodeText(token.content, token.info)), stamp.(lang := Some(token.info)))]
    case Leaf(Inline) => [Part(Text, Some(token.content), stamp)] + Extract([token], meta, paused)
    case Leaf(Hr) => [Part(Text, Some(token.markup), stamp)]
    case Leaf(HtmlBlock) => [Part(Text, Some(token.content), stamp)]
    case Leaf(Definition) => [Part(Text, Some(DefinitionText(token)), stamp)]
    case _ =>
      if token.content == "" then []
      else [Part(Text, Some(token.content), if token.lines.Some? then meta.(lines := token.lines) else meta)]
  }

  // ----- Reading from a cursor -----

  /** The converter's mutable context. */
  datatype State = State(nesting: int, ordinal: nat, paused: bool)

  function Enter(c: Container, st: State): State {
    match c
    case Blockquote => st.(nesting := st.nesting + 1)
    case BulletList => st.(nesting := st.nesting + 1)
    case OrderedList => st.(nesting := st.nesting + 1, ordinal := 1)
    case Table => st.(nesting := st.nesting + 1, paused := true)
    case _ => st
  }

  /** Leaving puts back what entering changed; a numbered item uses up its number. */
  function Leave(token: Token, before: State, inside: State): State
    requires token.ttype.Open?
  {
    match token.ttype.container
    case Blockquote => inside.(nesting := inside.nesting - 1)
    case BulletList => inside.(nesting := inside.nesting - 1)
    case OrderedList => inside.(nesting := inside.nesting - 1, ordinal := before.ordinal)
    case Table => inside.(nesting := inside.nesting - 1, paused := before.paused)
    case ListItem => if token.info != "" then inside.(ordinal := inside.ordinal + 1) else inside
    case _ => inside
  }

  /** Parts, the next cursor position, and the context afterwards. */
  datatype Reading = Reading(parts: seq<Part>, pos: nat, st: State)

  function Read(tokens: seq<Token>, idx: nat, meta: Meta, st: State): (r: Reading)
    ensures idx < |tokens| ==> idx < r.pos <= |tokens|
    ensures idx >= |tokens| ==> r.pos == idx
    decreases |tokens| - idx, 0
  {
    if idx >= |tokens| then Reading([], idx, st)
    else if tokens[idx].ttype.Open? then
      var c := tokens[idx].ttype.container;
      var inner := ReadUntil(tokens, Close(c), idx + 1, meta, Enter(c, st));
      var after := Leave(tokens[idx], st, inner.st);
      var images := Extract(tokens[idx..inner.pos], meta, after.paused);
      Reading(Finish(tokens[idx], inner.parts, images, meta, after.nesting, inner.st.ordinal), inner.pos, after)
    else Reading(LeafParts(tokens[idx], meta, st.nesting, st.paused), idx + 1, st)
  }

  function ReadUntil(tokens: seq<Token>, close: TokenType, idx: nat, meta: Meta, st: State): (r: Reading)
    requires idx <= |tokens|
    ensures idx <= r.pos <= |tokens|
    decreases |tokens| - idx, 1
  {
    if idx >= |tokens| then Reading([], idx, st)
    else if tokens[idx].ttype == close then Reading([], idx + 1, st)
    else
      var first := Read(tokens, idx, meta, st);
      var rest := ReadUntil(tokens, close, first.pos, meta, first.st);
      Reading(first.parts + rest.parts, rest.pos, rest.st)
  }

  /** All tokens, in a fresh context. */
  function ReadAll(tokens: seq<Token>, idx: nat, meta: Meta, st: State): seq<Part>
    decreases |tokens| - idx
  {
    if idx >= |tokens| then []
    else
      var first := Read(tokens, idx, meta, st);
      first.parts + ReadAll(tokens, first.pos, meta, first.st)
  }

  const START := State(0, 1, false)

  // ----- One step of reading -----

  lemma {:induction false} ReadNothing(tokens: seq<Token>, i: nat, meta: Meta, st: State)
    requires i >= |tokens|
    ensures Read(tokens, i, meta, st) == Reading([], i, st)
  {
  }

  lemma {:induction false} ReadOpen(tokens: seq<Token>, i: nat, meta: Meta, st: State)
    requires i < |tokens| && tokens[i].ttype.Open?
    ensures var c := tokens[i].ttype.container;
            var inner := ReadUntil(tokens, Close(c), i + 1, meta, Enter(c, st));
            var after := Leave(tokens[i], st, inner.st);
            var images := Extract(tokens[i..inner.pos], meta, after.paused);
            && Read(tokens, i, meta, st)
               == Reading(Finish(tokens[i], inner.parts, images, meta, after.nesting, inner.st.ordinal), inner.pos, after)
  {
  }

  lemma {:induction false} ReadLeaf(tokens: seq<Token>, i: nat, meta: Meta, st: State)
    requires i < |tokens| && !tokens[i].ttype.Open?
    ensures Read(tokens, i, meta, st) == Reading(LeafParts(tokens[i], meta, st.nesting, st.paused), i + 1, st)
  {
  }

  lemma {:induction false} ReadUntilUnfolds(tokens: seq<Token>, close: TokenType, i: nat, meta: Meta, st: State)
    requires i <= |tokens|
    ensures i == |tokens| ==> ReadUntil(tokens, close, i, meta, st) == Reading([], i, st)
    ensures i < |tokens| && tokens[i].ttype == close ==> ReadUntil(tokens, close, i, meta, st) == Reading([], i + 1, st)
    ensures i < |tokens| && tokens[i].ttype != close ==>
              var first := Read(tokens, i, meta, st);
              var rest := ReadUntil(tokens, close, first.pos, meta, first.st);
              ReadUntil(tokens, close, i, meta, st) == Reading(first.parts + rest.parts, rest.pos, rest.st)
  {
  }
}
