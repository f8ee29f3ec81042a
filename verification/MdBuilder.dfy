/** Building the markdown of a document: each part is stamped in place with the
    lines it takes up. */
module MdBuilder {
  import opened Common
  import opened Chunking
  import opened MdLayout
  import opened Rechunker
  import opened TextLines

  ghost function Doc(parts: seq<Part>): (doc: seq<DocPart>)
    reads parts`content, parts`lines, parts`pages
    ensures |doc| == |parts|
    ensures forall i :: 0 <= i < |doc| ==> doc[i] == DocPart(parts[i].Value(), parts[i].asset)
  {
    if parts == [] then []
    else Doc(parts[..|parts| - 1]) + [DocPart(Last(parts).Value(), Last(parts).asset)]
  }

  /** The object at k is not met again before n. */
  ghost predicate LastMeeting(parts: seq<Part>, k: nat, n: nat)
    requires k < n <= |parts|
  {
    forall j :: k < j < n ==> parts[j] != parts[k]
  }

  method ToMdPart(parts: seq<Part>) returns (md: string)
    modifies parts`lines
    ensures md == LayOut(old(Doc(parts))).md
    ensures forall k :: 0 <= k < |parts| && LastMeeting(parts, k, |parts|) ==>
              k < |LayOut(old(Doc(parts))).parts| && parts[k].Value() == LayOut(old(Doc(parts))).parts[k]
  {
    hide Doc, LayOut, RStrip, Newlines, Stamped, LastMeeting;
    ghost var doc := Doc(parts);
    var pos := 0;
    md := "";
    LayOutNothing(parts, doc);
    for i := 0 to |parts|
      invariant md == LayOut(doc[..i]).md && pos == LayOut(doc[..i]).pos
      invariant Stamped(parts, doc, i, LayOut(doc[..i]).parts)
    {
      LayOutNext(doc, i);
      StampedAt(parts, doc, i, LayOut(doc[..i]).parts);
      var part := parts[i];
      ghost var stamped := LayOut(doc[..i]).parts;
      if part.asset || part.content == "" {
        StampedSkips(parts, doc, i, stamped);
        continue;
      }
      var content := RStrip(part.content) + "\n";
      var lines := Newlines(content);
      Stamp(part, parts, doc, i, stamped, Span(pos, pos + lines));
      md := md + content + "\n";
      pos := pos + lines + 1;
    }
    assert doc[..|parts|] == doc;
    StampedAll(parts, doc, LayOut(doc).parts);
  }

  /** The first i parts are laid out; every part keeps all but its lines. */
  ghost predicate Stamped(parts: seq<Part>, doc: seq<DocPart>, i: nat, laid: seq<PartValue>)
    reads parts`content, parts`lines, parts`pages
  {
    && |doc| == |parts| && i <= |parts| && |laid| == i
    && (forall k :: 0 <= k < |parts| ==> doc[k] == DocPart(parts[k].Value().(lines := doc[k].part.lines), parts[k].asset))
    && (forall k :: 0 <= k < |parts| && (parts[k].asset || parts[k].content == "") ==> parts[k].lines == doc[k].part.lines)
    && (forall k :: 0 <= k < i && LastMeeting(parts, k, i) ==> parts[k].Value() == laid[k])
  }

  method Stamp(part: Part, ghost parts: seq<Part>, ghost doc: seq<DocPart>, ghost i: nat, ghost laid: seq<PartValue>,
               span: Span)
    requires i < |parts| && part == parts[i] && Stamped(parts, doc, i, laid)
    requires !part.asset && part.content != ""
    modifies part`lines
    ensures Stamped(parts, doc, i + 1, laid + [doc[i].part.(lines := Some(span))])
  {
    part.lines := Some(span);
    forall k | 0 <= k < i + 1 && LastMeeting(parts, k, i + 1)
      ensures parts[k].Value() == (laid + [doc[i].part.(lines := Some(span))])[k]
    {
      assert k < i ==> parts[k] != parts[i] && LastMeeting(parts, k, i);
    }
  }

  lemma StampedSkips(parts: seq<Part>, doc: seq<DocPart>, i: nat, laid: seq<PartValue>)
    requires i < |parts| && Stamped(parts, doc, i, laid)
    requires parts[i].asset || parts[i].content == ""
    ensures Stamped(parts, doc, i + 1, laid + [doc[i].part])
  {
    forall k | 0 <= k < i + 1 && LastMeeting(parts, k, i + 1)
      ensures parts[k].Value() == (laid + [doc[i].part])[k]
    {
      assert k < i ==> LastMeeting(parts, k, i);
    }
  }

  lemma StampedAt(parts: seq<Part>, doc: seq<DocPart>, i: nat, laid: seq<PartValue>)
    requires i < |parts| && Stamped(parts, doc, i, laid)
    ensures doc[i].part.content == parts[i].content && doc[i].asset == parts[i].asset
  {
  }

  lemma StampedAll(parts: seq<Part>, doc: seq<DocPart>, laid: seq<PartValue>)
    requires Stamped(parts, doc, |parts|, laid)
    ensures |laid| == |parts|
    ensures forall k :: 0 <= k < |parts| && LastMeeting(parts, k, |parts|) ==> parts[k].Value() == laid[k]
  {
  }

  lemma {:induction false} LayOutNothing(parts: seq<Part>, doc: seq<DocPart>)
    requires doc == Doc(parts)
    ensures LayOut(doc[..0]) == Layout("", 0, [])
    ensures Stamped(parts, doc, 0, [])
  {
  }

  lemma LayOutNext(doc: seq<DocPart>, i: nat)
    requires i < |doc|
    ensures LayOut(doc[..i + 1]) == AddToLayout(LayOut(doc[..i]), doc[i])
  {
    hide AddToLayout;
    assert doc[..i + 1][..i] == doc[..i];
  }
}
