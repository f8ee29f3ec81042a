/** The converter from markdown tokens to parts: a cursor moves over the tokens and the
    handlers change a shared context. Each handler is proved to read what MdTokens.Read
    reads, on every token stream. */
module PartConverter {
  import opened Common
  import opened TextLines
  import opened MdTokens
  import opened MdBlocks
  import opened MdBlockLaws

  class Context {
    var nesting: int
    var ordinal: nat
    var paused: bool

    constructor ()
      ensures Value() == START
    {
      nesting, ordinal, paused := 0, 1, false;
    }

    function Value(): State
      reads this
    {
      State(nesting, ordinal, paused)
    }
  }

  /** Converts the token at idx and, for a container, everything up to its end. */
  method Convert(ctx: Context, tokens: seq<Token>, idx: nat, meta: Meta) returns (parts: seq<Part>, pos: nat)
    modifies ctx
    ensures Reading(parts, pos, ctx.Value()) == Read(tokens, idx, meta, old(ctx.Value()))
    decreases |tokens| - idx, 1
  {
    hide Read, LeafParts;
    if idx >= |tokens| {
      ReadNothing(tokens, idx, meta, ctx.Value());
      return [], idx;
    }
    var token := tokens[idx];
    match token.ttype {
      case Open(c) => parts, pos := ConvertOpen(ctx, c, tokens, idx, meta);
      case Leaf(_) => parts, pos := ConvertLeaf(ctx, tokens, idx, meta);
      case _ =>
        ReadLeaf(tokens, idx, meta, ctx.Value());
        UnhandledParts(token, meta, ctx.nesting, ctx.paused);
        parts, pos := [], idx + 1;
        if token.content != "" {
          var m := meta;
          if token.lines.Some? {
            m := m.(lines := token.lines);
          }
          parts := [Part(Text, Some(token.content), m)];
        }
    }
  }

  lemma UnhandledParts(token: Token, meta: Meta, nesting: int, paused: bool)
    requires !token.ttype.Open? && !token.ttype.Leaf?
    ensures LeafParts(token, meta, nesting, paused) ==
            if token.content == "" then []
            else [Part(Text, Some(token.content), if token.lines.Some? then meta.(lines := token.lines) else meta)]
  {
  }

  method ConvertOpen(ctx: Context, c: Container, tokens: seq<Token>, idx: nat, meta: Meta)
    returns (parts: seq<Part>, pos: nat)
    requires idx < |tokens| && tokens[idx].ttype == Open(c)
    modifies ctx
    ensures Reading(parts, pos, ctx.Value()) == Read(tokens, idx, meta, old(ctx.Value()))
    decreases |tokens| - idx, 0, 1
  {
    hide Read;
    match c {
      case Blockquote => parts, pos := ConvertBlockquoteOpen(ctx, tokens, idx, meta);
      case Heading => parts, pos := ConvertHeadingOpen(ctx, tokens, idx, meta);
      case Paragraph => parts, pos := ConvertParagraphOpen(ctx, tokens, idx, meta);
      case OrderedList => parts, pos := ConvertOrderedListOpen(ctx, tokens, idx, meta);
      case BulletList => parts, pos := ConvertBulletListOpen(ctx, tokens, idx, meta);
      case ListItem => parts, pos := ConvertListItemOpen(ctx, tokens, idx, meta);
      case Table => parts, pos := ConvertTableOpen(ctx, tokens, idx, meta);
      case Thead => parts, pos := ConvertTheadOpen(ctx, tokens, idx, meta);
      case Tbody => parts, pos := ConvertTbodyOpen(ctx, tokens, idx, meta);
      case Tr => parts, pos := ConvertTrOpen(ctx, tokens, idx, meta);
      case Th => parts, pos := ConvertThOpen(ctx, tokens, idx, meta);
      case Td => parts, pos := ConvertTdOpen(ctx, tokens, idx, meta);
    }
  }

  method ConvertLeaf(ctx: Context, tokens: seq<Token>, idx: nat, meta: Meta) returns (parts: seq<Part>, pos: nat)
    requires idx < |tokens| && tokens[idx].ttype.Leaf?
    ensures Reading(parts, pos, ctx.Value()) == Read(tokens, idx, meta, ctx.Value())
  {
    hide Read;
    match tokens[idx].ttype.leaf {
      case CodeBlock => parts, pos := ConvertCodeBlock(ctx, tokens, idx, meta);
      case Fence => parts, pos := ConvertFence(ctx, tokens, idx, meta);
      case Inline => parts, pos := ConvertInline(ctx, tokens, idx, meta);
      case Hr => parts, pos := ConvertHr(ctx, tokens, idx, meta);
      case HtmlBlock => parts, pos := ConvertHtmlBlock(ctx, tokens, idx, meta);
      case Definition => parts, pos := ConvertDefinition(ctx, tokens, idx, meta);
    }
  }

  /** Converts all tokens of a document. */
  method ConvertAll(tokens: seq<Token>, meta: Meta) returns (result: seq<Part>)
    ensures result == ReadAll(tokens, 0, meta, START)
    ensures forall bs :: tokens == FlatAll(bs) && AllWellFormed(bs) ==> result == AllParts(bs, meta, 0, 1, false)
  {
    hide Read, ReadAll, FlatAll, AllWellFormed, AllParts;
    result := [];
    var ctx := new Context();
    var pos := 0;
    while pos < |tokens|
      invariant pos <= |tokens|
      invariant ReadAll(tokens, 0, meta, START) == result + ReadAll(tokens, pos, meta, ctx.Value())
      decreases |tokens| - pos
    {
      ReadAllUnfolds(tokens, pos, meta, ctx.Value());
      var parts, next := Convert(ctx, tokens, pos, meta);
      result, pos := result + parts, next;
    }
    ReadAllUnfolds(tokens, pos, meta, ctx.Value());
    assert result + [] == result;
    forall bs | tokens == FlatAll(bs) && AllWellFormed(bs)
      ensures result == AllParts(bs, meta, 0, 1, false)
    {
      ConverterIsStructural(bs, meta);
    }
  }

  lemma {:induction false} ReadAllUnfolds(tokens: seq<Token>, idx: nat, meta: Meta, st: State)
    ensures idx >= |tokens| ==> ReadAll(tokens, idx, meta, st) == []
    ensures idx < |tokens| ==>
              var first := Read(tokens, idx, meta, st);
              ReadAll(tokens, idx, meta, st) == first.parts + ReadAll(tokens, first.pos, meta, first.st)
  {
    hide Read;
  }

  method ConvertUntilClose(ctx: Context, close: TokenType, tokens: seq<Token>, idx: nat, meta: Meta)
    returns (result: seq<Part>, pos: nat)
    requires idx <= |tokens|
    modifies ctx
    ensures Reading(result, pos, ctx.Value()) == ReadUntil(tokens, close, idx, meta, old(ctx.Value()))
    decreases |tokens| - idx, 2
  {
    hide Read, ReadUntil;
    result, pos := [], idx;
    while pos < |tokens|
      invariant idx <= pos <= |tokens|
      invariant var rest := ReadUntil(tokens, close, pos, meta, ctx.Value());
                ReadUntil(tokens, close, idx, meta, old(ctx.Value())) == Reading(result + rest.parts, rest.pos, rest.st)
      decreases |tokens| - pos
    {
      ReadUntilUnfolds(tokens, close, pos, meta, ctx.Value());
      if tokens[pos].ttype == close {
        assert result + [] == result;
        return result, pos + 1;
      }
      var parts, next := Convert(ctx, tokens, pos, meta);
      result, pos := result + parts, next;
    }
    ReadUntilUnfolds(tokens, close, pos, meta, ctx.Value());
    assert result + [] == result;
  }

  method ExtractImageParts(ctx: Context, tokens: seq<Token>, meta: Meta) returns (result: seq<Part>)
    ensures result == Extract(tokens, meta, ctx.paused)
  {
    hide Images, Pictures, Found;
    if ctx.paused {
      return [];
    }
    result := [];
    assert tokens[0..] == tokens;
    for i := 0 to |tokens|
      invariant Pictures(Images(tokens), meta) == result + Pictures(Images(tokens[i..]), meta)
    {
      ImagesUnfold(tokens, i, meta);
      var parts := ExtractFromChildren(tokens[i].children, meta);
      result := result + parts;
    }
    ImagesUnfold(tokens, |tokens|, meta);
    assert result + [] == result;
  }

  /** The images among the children of one token, those below a child before the child. */
  method ExtractFromChildren(children: seq<Child>, meta: Meta) returns (result: seq<Part>)
    ensures result == Pictures(Found(children), meta)
    decreases children, 1
  {
    hide Found, FoundBelow, Pictures;
    result := [];
    assert children[0..] == children;
    for j := 0 to |children|
      invariant Pictures(Found(children), meta) == result + Pictures(Found(children[j..]), meta)
    {
      FoundUnfolds(children, j, meta);
      var child := children[j];
      var parts := ExtractBelow(child.children, meta);
      if child.image.Some? {
        var image := child.image.value;
        parts := parts + [Part(Picture(image), None, meta.(lines := image.lines))];
      }
      result := result + parts;
    }
    FoundUnfolds(children, |children|, meta);
    assert result + [] == result;
  }

  method ExtractBelow(tokens: seq<Child>, meta: Meta) returns (result: seq<Part>)
    ensures result == Pictures(FoundBelow(tokens), meta)
    decreases tokens, 0
  {
    hide Found, FoundBelow, Pictures;
    result := [];
    assert tokens[0..] == tokens;
    for i := 0 to |tokens|
      invariant Pictures(FoundBelow(tokens), meta) == result + Pictures(FoundBelow(tokens[i..]), meta)
    {
      FoundBelowUnfolds(tokens, i, meta);
      var parts := ExtractFromChildren(tokens[i].children, meta);
      result := result + parts;
    }
    FoundBelowUnfolds(tokens, |tokens|, meta);
    assert result + [] == result;
  }

  lemma {:induction false} ImagesUnfold(tokens: seq<Token>, i: nat, meta: Meta)
    requires i <= |tokens|
    ensures i == |tokens| ==> Pictures(Images(tokens[i..]), meta) == []
    ensures i < |tokens| ==>
              Pictures(Images(tokens[i..]), meta)
              == Pictures(Found(tokens[i].children), meta) + Pictures(Images(tokens[i + 1..]), meta)
  {
    hide Found;
    if i < |tokens| {
      assert tokens[i..][1..] == tokens[i + 1..];
      PicturesJoin(Found(tokens[i].children), Images(tokens[i + 1..]), meta);
    }
  }

  lemma {:induction false} FoundUnfolds(children: seq<Child>, j: nat, meta: Meta)
    requires j <= |children|
    ensures j == |children| ==> Pictures(Found(children[j..]), meta) == []
    ensures j < |children| ==>
              var below, image := Pictures(FoundBelow(children[j].children), meta), children[j].image;
              var found := if image.None? then below
                           else below + [Part(Picture(image.value), None, meta.(lines := image.value.lines))];
              Pictures(Found(children[j..]), meta) == found + Pictures(Found(children[j + 1..]), meta)
  {
    hide FoundBelow;
    if j < |children| {
      assert children[j..][1..] == children[j + 1..];
      var own := if children[j].image.Some? then [children[j].image.value] else [];
      var below := FoundBelow(children[j].children);
      PicturesJoin(below, own, meta);
      PicturesJoin(below + own, Found(children[j + 1..]), meta);
      if own != [] {
        OnePicture(own, meta);
      }
      assert below + [] == below;
    }
  }

  lemma {:induction false} OnePicture(own: seq<Image>, meta: Meta)
    requires |own| == 1
    ensures Pictures(own, meta) == [Part(Picture(own[0]), None, meta.(lines := own[0].lines))]
  {
  }

  lemma {:induction false} FoundBelowUnfolds(tokens: seq<Child>, i: nat, meta: Meta)
    requires i <= |tokens|
    ensures i == |tokens| ==> Pictures(FoundBelow(tokens[i..]), meta) == []
    ensures i < |tokens| ==>
              Pictures(FoundBelow(tokens[i..]), meta)
              == Pictures(Found(tokens[i].children), meta) + Pictures(FoundBelow(tokens[i + 1..]), meta)
  {
    hide Found;
    if i < |tokens| {
      assert tokens[i..][1..] == tokens[i + 1..];
      PicturesJoin(Found(tokens[i].children), FoundBelow(tokens[i + 1..]), meta);
    }
  }

  // ----- Quotes and lists -----

  method ConvertBlockquoteOpen(ctx: Context, tokens: seq<Token>, idx: nat, meta: Meta)
    returns (parts: seq<Part>, pos: nat)
    requires idx < |tokens| && tokens[idx].ttype == Open(Blockquote)
    modifies ctx
    ensures Reading(parts, pos, ctx.Value()) == Read(tokens, idx, meta, old(ctx.Value()))
    decreases |tokens| - idx, 0, 0
  {
    hide Read, ReadUntil, Extract, QuoteAll;
    ReadOpen(tokens, idx, meta, ctx.Value());
    ctx.nesting := ctx.nesting + 1;
    parts, pos := ConvertUntilClose(ctx, Close(Blockquote), tokens, idx + 1, meta);
    ctx.nesting := ctx.nesting - 1;
    parts := QuoteLines(tokens[idx].markup + " ", parts);
  }

  /** Puts the prefix in front of every line of the text parts. */
  method QuoteLines(prefix: string, inner: seq<Part>) returns (parts: seq<Part>)
    ensures parts == QuoteAll(prefix, inner)
  {
    hide Lines, JoinLines, Indent;
    parts := inner;
    for i := 0 to |inner|
      invariant |parts| == |inner|
      invariant forall j :: 0 <= j < i ==> parts[j] == Quote(prefix, inner[j])
      invariant forall j :: i <= j < |inner| ==> parts[j] == inner[j]
    {
      var part := parts[i];
      if !IsText(part) {
        continue;
      }
      if part.content.Some? {
        var lines := Lines(part.content.value);
        IndentEvenly(part.content.value, prefix);
        parts := parts[i := part.(content := Some(JoinLines(PrefixAll(lines, prefix))))];
      }
    }
  }

  lemma {:induction false} IndentEvenly(text: string, prefix: string)
    ensures Indent(text, prefix, prefix) == JoinLines(PrefixAll(Lines(text), prefix))
  {
    hide Lines, JoinLines;
  }

  method ConvertOrderedListOpen(ctx: Context, tokens: seq<Token>, idx: nat, meta: Meta)
    returns (parts: seq<Part>, pos: nat)
    requires idx < |tokens| && tokens[idx].ttype == Open(OrderedList)
    modifies ctx
    ensures Reading(parts, pos, ctx.Value()) == Read(tokens, idx, meta, old(ctx.Value()))
    decreases |tokens| - idx, 0, 0
  {
    hide Read, ReadUntil, Extract;
    ReadOpen(tokens, idx, meta, ctx.Value());
    var oldOrdinal := ctx.ordinal;
    ctx.ordinal := 1;
    ctx.nesting := ctx.nesting + 1;
    parts, pos := ConvertUntilClose(ctx, Close(OrderedList), tokens, idx + 1, meta);
    ctx.ordinal := oldOrdinal;
    ctx.nesting := ctx.nesting - 1;
  }

  method ConvertBulletListOpen(ctx: Context, tokens: seq<Token>, idx: nat, meta: Meta)
    returns (parts: seq<Part>, pos: nat)
    requires idx < |tokens| && tokens[idx].ttype == Open(BulletList)
    modifies ctx
    ensures Reading(parts, pos, ctx.Value()) == Read(tokens, idx, meta, old(ctx.Value()))
    decreases |tokens| - idx, 0, 0
  {
    hide Read, ReadUntil, Extract;
    ReadOpen(tokens, idx, meta, ctx.Value());
    ctx.nesting := ctx.nesting + 1;
    parts, pos := ConvertUntilClose(ctx, Close(BulletList), tokens, idx + 1, meta);
    ctx.nesting := ctx.nesting - 1;
  }

  method ConvertListItemOpen(ctx: Context, tokens: seq<Token>, idx: nat, meta: Meta)
    returns (result: seq<Part>, pos: nat)
    requires idx < |tokens| && tokens[idx].ttype == Open(ListItem)
    modifies ctx
    ensures Reading(result, pos, ctx.Value()) == Read(tokens, idx, meta, old(ctx.Value()))
    decreases |tokens| - idx, 0, 0
  {
    hide Read, ReadUntil, Extract, MarkFirst, IndentAll, Decimal;
    ReadOpen(tokens, idx, meta, ctx.Value());
    var parts;
    parts, pos := ConvertUntilClose(ctx, Close(ListItem), tokens, idx + 1, meta);
    var token := tokens[idx];
    var itemMarker := token.markup + " ";
    if |token.info| != 0 {
      itemMarker := Decimal(ctx.ordinal) + token.markup + " ";
      ctx.ordinal := ctx.ordinal + 1;
    } else {
      assert "" + token.markup == token.markup;
    }
    var stamp := meta.(lines := token.lines, nesting := Some(ctx.nesting));
    if |parts| == 0 {
      return [Part(Text, Some(itemMarker), stamp)], pos;
    }
    var first := MarkFirstPart(itemMarker, parts[0], stamp);
    var others := IndentOthers(parts[1..]);
    result := first + others;
  }

  /** The marker in front of the first line of a text, the other lines moved in by as
      much; a part that is no text gets a part with the marker in front. */
  method MarkFirstPart(itemMarker: string, firstPart: Part, stamp: Meta) returns (result: seq<Part>)
    ensures result == MarkFirst(itemMarker, firstPart, stamp)
  {
    hide Lines, JoinLines, Repeat, PrefixAll;
    if IsText(firstPart) {
      var lines := Lines(OrEmpty(firstPart.content));
      var spaces := Repeat(" ", |itemMarker|);
      ghost var before := lines;
      lines := lines[0 := itemMarker + lines[0]];
      for i := 1 to |lines|
        invariant |lines| == |before| && lines[0] == itemMarker + before[0]
        invariant forall j :: 1 <= j < i ==> lines[j] == spaces + before[j]
        invariant forall j :: i <= j < |lines| ==> lines[j] == before[j]
      {
        lines := lines[i := spaces + lines[i]];
      }
      assert lines == [itemMarker + before[0]] + PrefixAll(before[1..], spaces);
      return [firstPart.(content := Some(JoinLines(lines)))];
    } else {
      return [Part(Text, Some(itemMarker), stamp), firstPart];
    }
  }

  method IndentOthers(parts: seq<Part>) returns (result: seq<Part>)
    ensures result == IndentAll(parts)
  {
    hide Lines, JoinLines, PrefixAll, Indent;
    result := [];
    for i := 0 to |parts|
      invariant |result| == i && forall j :: 0 <= j < i ==> result[j] == IndentPart(parts[j])
    {
      var part := parts[i];
      if IsText(part) {
        var lines := PrefixAll(Lines(OrEmpty(part.content)), INDENTION);
        IndentEvenly(OrEmpty(part.content), INDENTION);
        part := part.(content := Some(JoinLines(lines)));
      }
      result := result + [part];
    }
  }

  // ----- Headings, paragraphs, single tokens -----

  /** The contents of the parts, one after the other. */
  method Concatenate(parts: seq<Part>) returns (text: string)
    ensures text == AllText(parts)
  {
    hide AllText;
    text := "";
    assert parts[0..] == parts;
    for i := 0 to |parts|
      invariant AllText(parts) == text + AllText(parts[i..])
    {
      AllTextUnfolds(parts, i);
      if parts[i].content.Some? {
        text := text + parts[i].content.value;
      } else {
        assert text + "" == text;
      }
    }
    AllTextUnfolds(parts, |parts|);
    assert text + "" == text;
  }

  lemma AllTextUnfolds(parts: seq<Part>, i: nat)
    requires i <= |parts|
    ensures i == |parts| ==> AllText(parts[i..]) == ""
    ensures i < |parts| ==> AllText(parts[i..]) == OrEmpty(parts[i].content) + AllText(parts[i + 1..])
  {
    if i < |parts| {
      assert parts[i..][1..] == parts[i + 1..];
    }
  }

  method ConvertHeadingOpen(ctx: Context, tokens: seq<Token>, idx: nat, meta: Meta)
    returns (parts: seq<Part>, pos: nat)
    requires idx < |tokens| && tokens[idx].ttype == Open(Heading)
    modifies ctx
    ensures Reading(parts, pos, ctx.Value()) == Read(tokens, idx, meta, old(ctx.Value()))
    decreases |tokens| - idx, 0, 0
  {
    hide Read, ReadUntil, Extract, Repeat, AllText;
    ReadOpen(tokens, idx, meta, ctx.Value());
    parts, pos := ConvertUntilClose(ctx, Close(Heading), tokens, idx + 1, meta);
    var text := Concatenate(parts);
    var token := tokens[idx];
    var level: nat;
    if token.markup in ["=", "-"] {
      level := if token.markup == "=" then 1 else 2;
    } else {
      level := |token.markup|;
    }
    var title := Repeat("#", level) + " " + text;
    parts := [Part(Title(level), Some(title), meta.(lines := token.lines, nesting := Some(ctx.nesting)))];
  }

  method ConvertParagraphOpen(ctx: Context, tokens: seq<Token>, idx: nat, meta: Meta)
    returns (parts: seq<Part>, pos: nat)
    requires idx < |tokens| && tokens[idx].ttype == Open(Paragraph)
    modifies ctx
    ensures Reading(parts, pos, ctx.Value()) == Read(tokens, idx, meta, old(ctx.Value()))
    decreases |tokens| - idx, 0, 0
  {
    hide Read, ReadUntil, Extract;
    ReadOpen(tokens, idx, meta, ctx.Value());
    parts, pos := ConvertUntilClose(ctx, Close(Paragraph), tokens, idx + 1, meta);
  }

  method ToCodeContent(code: string, lang: string) returns (text: string)
    ensures text == CodeText(code, lang)
  {
    hide Contains, Strip;
    var n, i := 3, 0;
    while i < 10
      invariant i <= 10 && Backticks(code, 3, 10) == Backticks(code, n, 10 - i)
    {
      if !Contains(code, Repeat("`", n)) {
        break;
      }
      n, i := n + 1, i + 1;
    }
    var backticks := Repeat("`", n);
    return backticks + lang + "\n" + Strip(code) + "\n" + backticks;
  }

  method ConvertCodeBlock(ctx: Context, tokens: seq<Token>, idx: nat, meta: Meta) returns (parts: seq<Part>, pos: nat)
    requires idx < |tokens| && tokens[idx].ttype == Leaf(CodeBlock)
    ensures Reading(parts, pos, ctx.Value()) == Read(tokens, idx, meta, ctx.Value())
  {
    hide Read, CodeText;
    ReadLeaf(tokens, idx, meta, ctx.Value());
    var token := tokens[idx];
    var code := ToCodeContent(token.content, "");
    return [Part(Code(None), Some(code), meta.(lines := token.lines, nesting := Some(ctx.nesting)))], idx + 1;
  }

  method ConvertFence(ctx: Context, tokens: seq<Token>, idx: nat, meta: Meta) returns (parts: seq<Part>, pos: nat)
    requires idx < |tokens| && tokens[idx].ttype == Leaf(Fence)
    ensures Reading(parts, pos, ctx.Value()) == Read(tokens, idx, meta, ctx.Value())
  {
    hide Read, CodeText;
    ReadLeaf(tokens, idx, meta, ctx.Value());
    var token := tokens[idx];
    var m := meta.(lines := token.lines, nesting := Some(ctx.nesting));
    var lang := None;
    if token.info != "" {
      lang := Some(token.info);
      m := m.(lang := lang);
    }
    var code := ToCodeContent(token.content, token.info);
    return [Part(Code(lang), Some(code), m)], idx + 1;
  }

  method ConvertInline(ctx: Context, tokens: seq<Token>, idx: nat, meta: Meta) returns (parts: seq<Part>, pos: nat)
    requires idx < |tokens| && tokens[idx].ttype == Leaf(Inline)
    ensures Reading(parts, pos, ctx.Value()) == Read(tokens, idx, meta, ctx.Value())
  {
    hide Read, Extract;
    ReadLeaf(tokens, idx, meta, ctx.Value());
    var token := tokens[idx];
    assert tokens[idx..idx + 1] == [token];
    var imgParts := ExtractImageParts(ctx, tokens[idx..idx + 1], meta);
    var m := meta.(lines := token.lines, nesting := Some(ctx.nesting));
    return [Part(Text, Some(token.content), m)] + imgParts, idx + 1;
  }

  method ConvertHr(ctx: Context, tokens: seq<Token>, idx: nat, meta: Meta) returns (parts: seq<Part>, pos: nat)
    requires idx < |tokens| && tokens[idx].ttype == Leaf(Hr)
    ensures Reading(parts, pos, ctx.Value()) == Read(tokens, idx, meta, ctx.Value())
  {
    hide Read;
    ReadLeaf(tokens, idx, meta, ctx.Value());
    var token := tokens[idx];
    var m := meta.(lines := token.lines, nesting := Some(ctx.nesting));
    return [Part(Text, Some(token.markup), m)], idx + 1;
  }

  method ConvertHtmlBlock(ctx: Context, tokens: seq<Token>, idx: nat, meta: Meta) returns (parts: seq<Part>, pos: nat)
    requires idx < |tokens| && tokens[idx].ttype == Leaf(HtmlBlock)
    ensures Reading(parts, pos, ctx.Value()) == Read(tokens, idx, meta, ctx.Value())
  {
    hide Read;
    ReadLeaf(tokens, idx, meta, ctx.Value());
    var token := tokens[idx];
    var m := meta.(lines := token.lines, nesting := Some(ctx.nesting));
    return [Part(Text, Some(token.content), m)], idx + 1;
  }

  method ConvertDefinition(ctx: Context, tokens: seq<Token>, idx: nat, meta: Meta) returns (parts: seq<Part>, pos: nat)
    requires idx < |tokens| && tokens[idx].ttype == Leaf(Definition)
    ensures Reading(parts, pos, ctx.Value()) == Read(tokens, idx, meta, ctx.Value())
  {
    hide Read;
    ReadLeaf(tokens, idx, meta, ctx.Value());
    var token := tokens[idx];
    var content := "[" + ShownOr(token.name) + "]: " + ShownOr(token.url);
    if OrEmpty(token.title) != "" {
      content := content + (" (" + token.title.value + ")");
    } else {
      assert content + "" == content;
    }
    var m := meta.(lines := token.lines, nesting := Some(ctx.nesting));
    return [Part(Text, Some(content), m)], idx + 1;
  }

  // ----- Tables -----

  method ConvertTableOpen(ctx: Context, tokens: seq<Token>, idx: nat, meta: Meta)
    returns (parts: seq<Part>, pos: nat)
    requires idx < |tokens| && tokens[idx].ttype == Open(Table)
    modifies ctx
    ensures Reading(parts, pos, ctx.Value()) == Read(tokens, idx, meta, old(ctx.Value()))
    decreases |tokens| - idx, 0, 0
  {
    hide Read, ReadUntil, Extract, JoinLines, Contents;
    ReadOpen(tokens, idx, meta, ctx.Value());
    ctx.nesting := ctx.nesting + 1;
    var oldPaused := ctx.paused;
    ctx.paused := true;
    parts, pos := ConvertUntilClose(ctx, Close(Table), tokens, idx + 1, meta);
    ctx.paused := oldPaused;
    ctx.nesting := ctx.nesting - 1;
    var imgParts := ExtractImageParts(ctx, tokens[idx..pos], meta);
    var text := JoinLines(Contents(parts));
    var m := meta.(lines := tokens[idx].lines, nesting := Some(ctx.nesting));
    parts := [Part(Text, Some(text), m)] + imgParts;
  }

  method ConvertTheadOpen(ctx: Context, tokens: seq<Token>, idx: nat, meta: Meta)
    returns (parts: seq<Part>, pos: nat)
    requires idx < |tokens| && tokens[idx].ttype == Open(Thead)
    modifies ctx
    ensures Reading(parts, pos, ctx.Value()) == Read(tokens, idx, meta, old(ctx.Value()))
    decreases |tokens| - idx, 0, 0
  {
    hide Read, ReadUntil, Extract, Repeat;
    ReadOpen(tokens, idx, meta, ctx.Value());
    parts, pos := ConvertUntilClose(ctx, Close(Thead), tokens, idx + 1, meta);
    if |parts| == 0 {
      return [], pos;
    }
    var columnCount := if parts[0].meta.columns.Some? then parts[0].meta.columns.value else 0;
    if columnCount == 0 {
      return [], pos;
    }
    var text := OrEmpty(parts[0].content);
    text := text + "\n" + Repeat("|---", columnCount) + "|";
    parts := [Part(Text, Some(text), meta)];
  }

  method ConvertTbodyOpen(ctx: Context, tokens: seq<Token>, idx: nat, meta: Meta)
    returns (parts: seq<Part>, pos: nat)
    requires idx < |tokens| && tokens[idx].ttype == Open(Tbody)
    modifies ctx
    ensures Reading(parts, pos, ctx.Value()) == Read(tokens, idx, meta, old(ctx.Value()))
    decreases |tokens| - idx, 0, 0
  {
    hide Read, ReadUntil, Extract, JoinLines, Contents;
    ReadOpen(tokens, idx, meta, ctx.Value());
    parts, pos := ConvertUntilClose(ctx, Close(Tbody), tokens, idx + 1, meta);
    parts := [Part(Text, Some(JoinLines(Contents(parts))), meta)];
  }

  method ConvertTrOpen(ctx: Context, tokens: seq<Token>, idx: nat, meta: Meta)
    returns (parts: seq<Part>, pos: nat)
    requires idx < |tokens| && tokens[idx].ttype == Open(Tr)
    modifies ctx
    ensures Reading(parts, pos, ctx.Value()) == Read(tokens, idx, meta, old(ctx.Value()))
    decreases |tokens| - idx, 0, 0
  {
    hide Read, ReadUntil, Extract, Cells;
    ReadOpen(tokens, idx, meta, ctx.Value());
    parts, pos := ConvertUntilClose(ctx, Close(Tr), tokens, idx + 1, meta);
    if |parts| == 0 {
      return [], pos;
    }
    var text := JoinCells(parts);
    text := text + "|";
    parts := [Part(Text, Some(text), meta.(columns := Some(|parts|)))];
  }

  method JoinCells(parts: seq<Part>) returns (text: string)
    ensures text == Cells(parts)
  {
    hide EscapeCell, Cells;
    text := "";
    assert parts[0..] == parts;
    for i := 0 to |parts|
      invariant Cells(parts) == text + Cells(parts[i..])
    {
      CellsUnfold(parts, i);
      var cell := "| ";
      if parts[i].content.Some? {
        cell := cell + (EscapeCell(parts[i].content.value) + " ");
      }
      text := text + cell;
    }
    CellsUnfold(parts, |parts|);
    assert text + "" == text;
  }

  lemma CellsUnfold(parts: seq<Part>, i: nat)
    requires i <= |parts|
    ensures i == |parts| ==> Cells(parts[i..]) == ""
    ensures i < |parts| ==>
              var cell := if parts[i].content.Some? then "| " + (EscapeCell(parts[i].content.value) + " ") else "| ";
              Cells(parts[i..]) == cell + Cells(parts[i + 1..])
  {
    hide EscapeCell;
    if i < |parts| {
      assert parts[i..][1..] == parts[i + 1..];
      assert parts[i].content.None? ==> "| " + "" == "| ";
    }
  }

  method ConvertThOpen(ctx: Context, tokens: seq<Token>, idx: nat, meta: Meta)
    returns (parts: seq<Part>, pos: nat)
    requires idx < |tokens| && tokens[idx].ttype == Open(Th)
    modifies ctx
    ensures Reading(parts, pos, ctx.Value()) == Read(tokens, idx, meta, old(ctx.Value()))
    decreases |tokens| - idx, 0, 0
  {
    hide Read, ReadUntil, Extract, AllText;
    ReadOpen(tokens, idx, meta, ctx.Value());
    parts, pos := ConvertUntilClose(ctx, Close(Th), tokens, idx + 1, meta);
    var text := Concatenate(parts);
    parts := [Part(Text, Some(text), meta)];
  }

  method ConvertTdOpen(ctx: Context, tokens: seq<Token>, idx: nat, meta: Meta)
    returns (parts: seq<Part>, pos: nat)
    requires idx < |tokens| && tokens[idx].ttype == Open(Td)
    modifies ctx
    ensures Reading(parts, pos, ctx.Value()) == Read(tokens, idx, meta, old(ctx.Value()))
    decreases |tokens| - idx, 0, 0
  {
    hide Read, ReadUntil, Extract, AllText;
    ReadOpen(tokens, idx, meta, ctx.Value());
    parts, pos := ConvertUntilClose(ctx, Close(Td), tokens, idx + 1, meta);
    var text := Concatenate(parts);
    parts := [Part(Text, Some(text), meta)];
  }
}
