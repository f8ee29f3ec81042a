/** The two steps together: the markdown of a document is built, stamping its parts, and
    the stamped parts are chunked. */
module SourceMap {
  import opened Chunking
  import opened GroupingLaws
  import opened MdBuilder
  import opened MdLayout
  import opened Rechunker
  import opened SourceMapLaws

  ghost predicate DistinctParts(parts: seq<Part>) {
    forall i, j :: 0 <= i < j < |parts| ==> parts[i] != parts[j]
  }

  /** The output part's interval gives back its text. */
  predicate Locates(md: string, chunk: Part)
    reads chunk`content, chunk`lines
  {
    chunk.lines.Some? && Slice(md, chunk.lines.value) == chunk.content
  }

  /** For parts without trailing whitespace: an output part without chunks is located by
      its interval exactly when its pieces are neighbours in the markdown, and all are when
      no FAQ entry directly follows a part with content that is not one. */
  method BuildAndRechunk(rechunker: Rechunker, parts: seq<Part>) returns (md: string, chunks: seq<Part>)
    requires DistinctParts(parts) && Clean(Doc(parts))
    requires forall p <- parts :: p.Cached(rechunker.cfg.tokenizer)
    modifies parts`lines, parts`tokens, rechunker`pageLists
    ensures Values(parts) == LayOut(old(Doc(parts))).parts
    ensures |chunks| == |Chunking.Rechunk(rechunker.cfg, Values(parts))|
    ensures forall k :: 0 <= k < |chunks| ==>
              var run := Chunking.Rechunk(rechunker.cfg, Values(parts))[k];
              Unsplit(run.pieces) ==>
                && (Locates(md, chunks[k]) <==> Neighbours(run.pieces))
                && (NoFaqAfterText(Kept(Values(parts))) ==> Locates(md, chunks[k]))
  {
    hide LayOut, Doc, Clean, Chunking.Rechunk, Neighbours, Unsplit, NoFaqAfterText, Kept, Slice;
    ghost var doc, cfg := Doc(parts), rechunker.cfg;
    md := ToMdPart(parts);
    LayOutLength(doc);
    StampedValues(parts, LayOut(doc).parts);
    chunks := rechunker.Rechunk(parts);
    ghost var runs := Chunking.Rechunk(cfg, Values(parts));
    RenderedRuns(cfg.tokenizer, chunks, runs);
    forall k | 0 <= k < |chunks|
      ensures Unsplit(runs[k].pieces) ==>
                && (Locates(md, chunks[k]) <==> Neighbours(runs[k].pieces))
                && (NoFaqAfterText(Kept(Values(parts))) ==> Locates(md, chunks[k]))
    {
      if Unsplit(runs[k].pieces) {
        SourceMapRoundTrip(cfg, doc, k);
        ShownLocates(md, chunks[k], runs[k]);
      }
    }
  }

  lemma {:induction false} StampedValues(parts: seq<Part>, laid: seq<PartValue>)
    requires DistinctParts(parts) && |laid| == |parts|
    requires forall k :: 0 <= k < |parts| && LastMeeting(parts, k, |parts|) ==> parts[k].Value() == laid[k]
    ensures Values(parts) == laid
  {
    forall k | 0 <= k < |parts|
      ensures Values(parts)[k] == laid[k]
    {
      assert LastMeeting(parts, k, |parts|);
    }
  }

  lemma RenderedRuns(tok: Splitter.Tokenizer, chunks: seq<Part>, runs: seq<Run>)
    requires Rendered(tok, chunks, runs)
    ensures |chunks| == |runs|
    ensures forall k :: 0 <= k < |chunks| ==> runs[k].pieces != [] && chunks[k].Value() == Render(runs[k])
  {
  }

  lemma ShownLocates(md: string, chunk: Part, run: Run)
    requires run.pieces != [] && chunk.Value() == Render(run)
    ensures Locates(md, chunk) <==> RoundTrips(md, run)
  {
    hide Slice, RunText, RunLines;
  }
}
