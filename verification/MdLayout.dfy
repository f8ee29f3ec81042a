/** The markdown built from parts, the line interval stamped on each of them, and
    the round trip from an output part's merged interval back to its text. */
module MdLayout {
  import opened Common
  import opened Chunking
  import opened GroupingLaws
  import opened OrderLaws
  import opened TextLines

  // ----- Building the markdown -----

  /** A parsed part; binary assets are left out of the markdown. */
  datatype DocPart = DocPart(part: PartValue, asset: bool)

  /** Markdown so far, the next line number, and the parts with their intervals. */
  datatype Layout = Layout(md: string, pos: nat, parts: seq<PartValue>)

  function AddToLayout(l: Layout, d: DocPart): Layout {
    if d.asset || d.part.content == "" then l.(parts := l.parts + [d.part])
    else
      var content := RStrip(d.part.content) + "\n";
      var lines := Newlines(content);
      Layout(l.md + content + "\n", l.pos + lines + 1,
             l.parts + [d.part.(lines := Some(Span(l.pos, l.pos + lines)))])
  }

  function LayOut(doc: seq<DocPart>): Layout {
    if doc == [] then Layout("", 0, []) else AddToLayout(LayOut(doc[..|doc| - 1]), Last(doc))
  }

  lemma {:induction false} LayOutLength(doc: seq<DocPart>)
    ensures |LayOut(doc).parts| == |doc|
  {
    if doc != [] {
      LayOutLength(doc[..|doc| - 1]);
    }
  }

  // ----- Where the parts lie -----

  /** The text of lines first up to but not including last. */
  function Slice(md: string, span: Span): string {
    var ls := Lines(md);
    if 0 <= span.first <= span.last <= |ls| then JoinLines(ls[span.first..span.last]) else ""
  }

  /** The part's interval holds its text, and a blank line follows. */
  predicate OnLines(ls: seq<string>, p: PartValue) {
    && p.lines.Some?
    && 0 <= p.lines.value.first <= p.lines.value.last < |ls|
    && ls[p.lines.value.first..p.lines.value.last] == Lines(p.content)
    && ls[p.lines.value.last] == ""
  }

  /** No trailing blanks in a part, and no text in an asset. */
  predicate Clean(doc: seq<DocPart>) {
    forall i :: 0 <= i < |doc| ==>
      RStrip(doc[i].part.content) == doc[i].part.content && (doc[i].asset ==> doc[i].part.content == "")
  }

  /** Every kept part is laid out, each right after the one before it. */
  ghost predicate LaidOut(ls: seq<string>, pos: nat, kept: seq<PartValue>) {
    && (forall i :: 0 <= i < |kept| ==> OnLines(ls, kept[i]))
    && (forall i :: 0 < i < |kept| ==> Adjacent(kept[i - 1], kept[i]))
    && (kept != [] ==> Last(kept).lines.Some? && Last(kept).lines.value.last + 1 == pos)
    && (kept == [] ==> pos == 0)
  }

  /** One more clean part: its lines and a blank one are added. */
  lemma {:induction false} LayoutStep(md: string, body: seq<string>, content: string)
    requires (md == "" || Last(md) == '\n') && Lines(md) == body + [""]
    ensures Lines(md + (content + "\n") + "\n") == body + Lines(content) + [""] + [""]
  {
    assert Lines("") == [""];
    hide Lines;
    assert md + (content + "\n") + "\n" == md + (content + "\n" + ("" + "\n" + ""));
    LinesAfter(md, content + "\n" + ("" + "\n" + ""));
    LinesBreak(content, "" + "\n" + "");
    LinesBreak("", "");
    assert (body + [""])[..|body|] == body;
  }

  /** The layout of clean parts, told on the lines of the markdown. */
  ghost predicate GoodLayout(l: Layout, body: seq<string>) {
    && (l.md == "" || Last(l.md) == '\n')
    && Lines(l.md) == body + [""] && |body| == l.pos
    && LaidOut(body, l.pos, Kept(l.parts))
  }

  /** The part as the markdown has it. */
  function Trim(p: PartValue): PartValue {
    p.(content := RStrip(p.content))
  }

  function TrimAll(items: seq<PartValue>): (r: seq<PartValue>)
    ensures |r| == |items| && forall i :: 0 <= i < |r| ==> r[i] == Trim(items[i])
  {
    seq(|items|, i requires 0 <= i < |items| => Trim(items[i]))
  }

  /** The layout of any parts: told on the lines, with trailing white space left out. */
  ghost predicate TrimmedLayout(l: Layout, body: seq<string>) {
    && (l.md == "" || Last(l.md) == '\n')
    && Lines(l.md) == body + [""] && |body| == l.pos
    && LaidOut(body, l.pos, TrimAll(Kept(l.parts)))
  }

  lemma AddAnyPart(l: Layout, d: DocPart)
    requires d.part.content != "" && !d.asset
    ensures var text := RStrip(d.part.content); var n := |Lines(text)|;
            AddToLayout(l, d) == Layout(l.md + (text + "\n") + "\n", l.pos + n + 1,
                                        l.parts + [d.part.(lines := Some(Span(l.pos, l.pos + n)))])
  {
    hide Lines, RStrip, Newlines;
    NewlinesSnoc(RStrip(d.part.content));
  }

  lemma AddKeepsTrimmed(l: Layout, body: seq<string>, d: DocPart) returns (r: seq<string>)
    requires TrimmedLayout(l, body) && (d.asset ==> d.part.content == "")
    ensures TrimmedLayout(AddToLayout(l, d), r)
  {
    hide Lines, LaidOut, Kept, RStrip, Newlines;
    if d.part.content == "" {
      KeptSnoc(l.parts, d.part);
      assert Kept(l.parts) + [] == Kept(l.parts);
      r := body;
    } else {
      var text := RStrip(d.part.content);
      LayoutStep(l.md, body, text);
      LaidOutGrows(body, l.pos, TrimAll(Kept(l.parts)), Trim(d.part));
      r := body + Lines(text) + [""];
      var q := d.part.(lines := Some(Span(l.pos, l.pos + |Lines(text)|)));
      KeptSnoc(l.parts, q);
      assert TrimAll(Kept(l.parts) + [q]) == TrimAll(Kept(l.parts)) + [Trim(q)];
      AddAnyPart(l, d);
    }
  }

  /** Binary assets have no text. */
  predicate NoAssetText(doc: seq<DocPart>) {
    forall i :: 0 <= i < |doc| ==> (doc[i].asset ==> doc[i].part.content == "")
  }

  /** For any document the interval of each part with content holds its text without trailing
      white space; the intervals follow one another, with a blank line between. */
  lemma {:induction false} LayoutOfAny(doc: seq<DocPart>) returns (body: seq<string>)
    requires NoAssetText(doc)
    ensures TrimmedLayout(LayOut(doc), body)
  {
    if doc == [] {
      body := [];
      NothingLaidOut();
    } else {
      hide TrimmedLayout, AddToLayout;
      body := LayoutOfAny(doc[..|doc| - 1]);
      body := AddKeepsTrimmed(LayOut(doc[..|doc| - 1]), body, Last(doc));
    }
  }

  lemma {:induction false} NothingLaidOut()
    ensures TrimmedLayout(LayOut([]), [])
  {
  }

  function WithoutAssets(doc: seq<DocPart>): seq<DocPart> {
    if doc == [] then []
    else WithoutAssets(doc[..|doc| - 1]) + if Last(doc).asset then [] else [Last(doc)]
  }

  /** Binary assets leave no trace in the markdown, whatever their content. */
  lemma {:induction false} AssetsAreLeftOut(doc: seq<DocPart>)
    ensures LayOut(doc).md == LayOut(WithoutAssets(doc)).md && LayOut(doc).pos == LayOut(WithoutAssets(doc)).pos
  {
    hide RStrip, Newlines;
    if doc != [] {
      var init, d := doc[..|doc| - 1], Last(doc);
      AssetsAreLeftOut(init);
      if d.asset {
        assert WithoutAssets(doc) == WithoutAssets(init);
      } else {
        assert WithoutAssets(doc)[..|WithoutAssets(doc)| - 1] == WithoutAssets(init);
      }
    }
  }

  /** The layout changes no content. */
  lemma {:induction false} CleanStaysClean(doc: seq<DocPart>)
    requires Clean(doc)
    ensures forall p <- LayOut(doc).parts :: RStrip(p.content) == p.content
  {
    hide RStrip, Newlines;
    if doc != [] {
      CleanStaysClean(doc[..|doc| - 1]);
    }
  }

  lemma {:induction false} KeptArePart(parts: seq<PartValue>)
    ensures forall p <- Kept(parts) :: p in parts
  {
    if parts != [] {
      KeptArePart(parts[..|parts| - 1]);
    }
  }

  lemma {:induction false} LayoutIsGood(doc: seq<DocPart>) returns (body: seq<string>)
    requires Clean(doc)
    ensures GoodLayout(LayOut(doc), body)
  {
    hide RStrip, LaidOut, LayOut, Kept, Lines;
    body := LayoutOfAny(doc);
    var kept := Kept(LayOut(doc).parts);
    CleanStaysClean(doc);
    KeptArePart(LayOut(doc).parts);
    forall i | 0 <= i < |kept|
      ensures TrimAll(kept)[i] == kept[i]
    {
      assert kept[i] in kept;
    }
    assert TrimAll(kept) == kept;
  }

  lemma LaidOutGrows(body: seq<string>, pos: nat, kept: seq<PartValue>, p: PartValue)
    requires LaidOut(body, pos, kept) && |body| == pos
    ensures var n := |Lines(p.content)|;
            LaidOut(body + Lines(p.content) + [""], pos + n + 1, kept + [p.(lines := Some(Span(pos, pos + n)))])
  {
    hide Lines;
    var n := |Lines(p.content)|;
    var ls, q := body + Lines(p.content) + [""], p.(lines := Some(Span(pos, pos + n)));
    NewPartOnLines(body, p);
    hide OnLines;
    forall i | 0 <= i < |kept|
      ensures OnLines(ls, kept[i])
    {
      OnLinesGrows(body, Lines(p.content) + [""], kept[i]);
      assert ls == body + (Lines(p.content) + [""]);
    }
    AdjacentSnoc(kept, q);
  }

  lemma NewPartOnLines(body: seq<string>, p: PartValue)
    ensures OnLines(body + Lines(p.content) + [""], p.(lines := Some(Span(|body|, |body| + |Lines(p.content)|))))
  {
    hide Lines;
  }

  lemma AdjacentSnoc(kept: seq<PartValue>, q: PartValue)
    requires forall i :: 0 < i < |kept| ==> Adjacent(kept[i - 1], kept[i])
    requires kept != [] ==> Adjacent(Last(kept), q)
    ensures forall i :: 0 < i < |kept + [q]| ==> Adjacent((kept + [q])[i - 1], (kept + [q])[i])
  {
    hide Adjacent;
    assert forall i :: 0 <= i < |kept| ==> (kept + [q])[i] == kept[i];
  }

  lemma OnLinesGrows(ls: seq<string>, more: seq<string>, p: PartValue)
    requires OnLines(ls, p)
    ensures OnLines(ls + more, p)
  {
    hide Lines;
    var s := p.lines.value;
    assert (ls + more)[s.first..s.last] == ls[s.first..s.last];
  }
}
