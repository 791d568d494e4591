/** Merging uploaded PDFs behind a table-of-contents page. Page numbers printed on
    the TOC are 1-based and count the TOC as page 1; the writer's page indices are
    0-based with the TOC at index 0. The two must agree: printed page == index + 1. */
module Merge {
  import opened Text
  import opened Documents
  import opened PdfOutput
  import opened TocLayout

  function Min(a: nat, b: nat): nat {
    if a < b then a else b
  }

  /** The TOC entry of document `i`: its name, and the page after the TOC page and
      the pages of the documents before it. */
  function PlannedEntry(docs: seq<SourceDocument>, i: nat): TocEntry
    requires i < |docs|
  {
    TocEntry(docs[i].name, 2 + PagesBefore(docs, i))
  }

  /** The 0-based index at which document `i` starts in the merged output. */
  function StartIndex(docs: seq<SourceDocument>, i: nat): nat
    requires i < |docs|
  {
    1 + PagesBefore(docs, i)
  }

  /** The clickable region over a TOC entry whose baseline is `y`. */
  function LinkRect(pageWidth: real, y: real): Rect {
    Rect(70.0, y - 2.0, pageWidth - 70.0, y + 12.0)
  }

  /** Computes the TOC entries with a running page counter that starts at the TOC page. */
  method PlanEntries(docs: seq<SourceDocument>) returns (entries: seq<TocEntry>)
    ensures |entries| == |docs|
    ensures forall i :: 0 <= i < |docs| ==>
              entries[i].title == docs[i].name && entries[i].startPage == 2 + PagesBefore(docs, i)
  {
    entries := [];
    var currentPage: nat := 1;
    for j := 0 to |docs|
      invariant |entries| == j
      invariant currentPage == 1 + PagesBefore(docs, j)
      invariant forall i :: 0 <= i < j ==> entries[i] == PlannedEntry(docs, i)
    {
      var startPage := currentPage + 1;
      entries := entries + [TocEntry(docs[j].name, startPage)];
      PagesBeforeStep(docs, j);
      currentPage := currentPage + |docs[j].pages|;
    }
  }

  /** Appends the TOC page and then every document's pages, recording for each
      document the writer's length just before its pages go in. */
  method AssemblePages(writer: Writer, tocPage: Page, docs: seq<SourceDocument>)
      returns (startIndices: seq<nat>)
    modifies writer
    ensures writer.pages == old(writer.pages) + [tocPage] + Flatten(docs)
    ensures writer.outline == old(writer.outline) && writer.annotations == old(writer.annotations)
    ensures |startIndices| == |docs|
    ensures forall i :: 0 <= i < |docs| ==>
              startIndices[i] == |old(writer.pages)| + 1 + PagesBefore(docs, i)
  {
    writer.AddPage(tocPage);
    ghost var base := writer.pages;
    startIndices := [];
    for j := 0 to |docs|
      invariant writer.pages == base + Flatten(docs[..j])
      invariant writer.outline == old(writer.outline) && writer.annotations == old(writer.annotations)
      invariant |startIndices| == j
      invariant forall i :: 0 <= i < j ==> startIndices[i] == |base| + PagesBefore(docs, i)
    {
      FlattenLength(docs[..j]);
      var startIndex := |writer.pages|;
      startIndices := startIndices + [startIndex];
      var pages := docs[j].pages;
      for k := 0 to |pages|
        invariant writer.pages == base + Flatten(docs[..j]) + pages[..k]
        invariant writer.outline == old(writer.outline) && writer.annotations == old(writer.annotations)
      {
        writer.AddPage(pages[k]);
        assert pages[..k + 1] == pages[..k] + [pages[k]];
      }
      assert pages[..|pages|] == pages;
      FlattenStep(docs, j);
    }
    assert docs[..|docs|] == docs;
  }

  /** Adds one bookmark per (document, start index) pair, as far as both lists go. */
  method AddBookmarks(writer: Writer, docs: seq<SourceDocument>, startIndices: seq<nat>)
    modifies writer
    ensures writer.pages == old(writer.pages) && writer.annotations == old(writer.annotations)
    ensures |writer.outline| == |old(writer.outline)| + Min(|docs|, |startIndices|)
    ensures writer.outline[..|old(writer.outline)|] == old(writer.outline)
    ensures forall i :: 0 <= i < Min(|docs|, |startIndices|) ==>
              writer.outline[|old(writer.outline)| + i] == Bookmark(docs[i].name, startIndices[i])
  {
    ghost var before := writer.outline;
    var n := Min(|docs|, |startIndices|);
    for i := 0 to n
      invariant writer.pages == old(writer.pages) && writer.annotations == old(writer.annotations)
      invariant |writer.outline| == |before| + i
      invariant writer.outline[..|before|] == before
      invariant forall k :: 0 <= k < i ==>
                  writer.outline[|before| + k] == Bookmark(docs[k].name, startIndices[k])
    {
      writer.AddOutlineItem(docs[i].name, startIndices[i]);
    }
  }

  /** Places one link on page 0 per (entry, baseline) pair, as far as both lists go;
      link `i` covers entry `i` and opens `startIndices[i]`. */
  method AddLinks(writer: Writer, entries: seq<TocEntry>, linkPositions: seq<real>,
                  pageWidth: real, startIndices: seq<nat>)
    requires Min(|entries|, |linkPositions|) <= |startIndices|
    modifies writer
    ensures writer.pages == old(writer.pages) && writer.outline == old(writer.outline)
    ensures |writer.annotations| == |old(writer.annotations)| + Min(|entries|, |linkPositions|)
    ensures writer.annotations[..|old(writer.annotations)|] == old(writer.annotations)
    ensures forall i :: 0 <= i < Min(|entries|, |linkPositions|) ==>
              writer.annotations[|old(writer.annotations)| + i]
                == Annotation(0, LinkRect(pageWidth, linkPositions[i]), startIndices[i])
  {
    ghost var before := writer.annotations;
    var n := Min(|entries|, |linkPositions|);
    for i := 0 to n
      invariant writer.pages == old(writer.pages) && writer.outline == old(writer.outline)
      invariant |writer.annotations| == |before| + i
      invariant writer.annotations[..|before|] == before
      invariant forall k :: 0 <= k < i ==>
                  writer.annotations[|before| + k]
                    == Annotation(0, LinkRect(pageWidth, linkPositions[k]), startIndices[k])
    {
      var y := linkPositions[i];
      var targetPageIndex := startIndices[i];
      var rect := Rect(70.0, y - 2.0, pageWidth - 70.0, y + 12.0);
      writer.AddAnnotation(0, rect, targetPageIndex);
    }
  }

  /** The structure of the merged PDF: its pages, its outline and its annotations. */
  datatype MergedPdf = MergedPdf(pages: seq<Page>, outline: seq<Bookmark>, annotations: seq<Annotation>)

  /** `p` is the TOC page for `docs`: the heading, then entry `i` on baseline
      `EntryY(height, i)` naming document `i` and its planned start page. */
  predicate IsTocPageFor(p: Page, docs: seq<SourceDocument>, height: real) {
    && p.TocPage?
    && p.heading == TextLine(72.0, height - 72.0, TocTitle)
    && |p.lines| == |docs|
    && forall i :: 0 <= i < |docs| ==>
         p.lines[i] == TextLine(80.0, EntryY(height, i), EntryLine(i + 1, PlannedEntry(docs, i)))
  }

  /** What merging `docs` on a page of the given size produces: the TOC page first,
      then all pages of all documents in order; one bookmark per document, and one
      link per entry on page 0, both opening that document's first page. */
  predicate IsMergeOf(docs: seq<SourceDocument>, width: real, height: real, m: MergedPdf) {
    && |m.pages| >= 1
    && IsTocPageFor(m.pages[0], docs, height)
    && m.pages[1..] == Flatten(docs)
    && |m.outline| == |docs|
    && (forall i :: 0 <= i < |docs| ==> m.outline[i] == Bookmark(docs[i].name, StartIndex(docs, i)))
    && |m.annotations| == |docs|
    && (forall i :: 0 <= i < |docs| ==>
          m.annotations[i] == Annotation(0, LinkRect(width, EntryY(height, i)), StartIndex(docs, i)))
  }

  /** Plans the entries, lays out the TOC page, assembles the pages and adds the
      bookmarks and links; the result is the writer's final content. */
  method MergePdfsWithToc(docs: seq<SourceDocument>, width: real, height: real)
      returns (merged: MergedPdf)
    ensures IsMergeOf(docs, width, height, merged)
  {
    var entries := PlanEntries(docs);
    var toc, linkPositions, tocPageWidth := CreateTocPage(entries, width, height);
    var writer := new Writer();
    var startIndices := AssemblePages(writer, toc, docs);
    AddBookmarks(writer, docs, startIndices);
    AddLinks(writer, entries, linkPositions, tocPageWidth, startIndices);
    merged := MergedPdf(writer.pages, writer.outline, writer.annotations);
    StepsMakeMerge(docs, width, height, entries, toc, linkPositions, startIndices, merged);
  }

  /** The results of the four steps, put together, are the merge of `docs`. */
  lemma StepsMakeMerge(docs: seq<SourceDocument>, width: real, height: real, entries: seq<TocEntry>,
                       toc: Page, linkPositions: seq<real>, startIndices: seq<nat>, m: MergedPdf)
    requires |entries| == |docs|
    requires forall i :: 0 <= i < |docs| ==>
               entries[i].title == docs[i].name && entries[i].startPage == 2 + PagesBefore(docs, i)
    requires toc.TocPage? && toc.heading == TextLine(72.0, height - 72.0, TocTitle)
    requires |toc.lines| == |entries|
    requires forall i :: 0 <= i < |entries| ==>
               toc.lines[i] == TextLine(80.0, EntryY(height, i), EntryLine(i + 1, entries[i]))
    requires |linkPositions| == |entries|
    requires forall i :: 0 <= i < |entries| ==> linkPositions[i] == toc.lines[i].y
    requires m.pages == [toc] + Flatten(docs)
    requires |startIndices| == |docs|
    requires forall i :: 0 <= i < |docs| ==> startIndices[i] == 1 + PagesBefore(docs, i)
    requires |m.outline| == Min(|docs|, |startIndices|)
    requires forall i :: 0 <= i < Min(|docs|, |startIndices|) ==>
               m.outline[i] == Bookmark(docs[i].name, startIndices[i])
    requires |m.annotations| == Min(|entries|, |linkPositions|)
    requires forall i :: 0 <= i < Min(|entries|, |linkPositions|) ==>
               m.annotations[i] == Annotation(0, LinkRect(width, linkPositions[i]), startIndices[i])
    ensures IsMergeOf(docs, width, height, m)
  {
    assert m.pages[0] == toc && m.pages[1..] == Flatten(docs);
  }

  /** Start pages: the first entry is on page 2, and each later entry starts where
      the previous one did plus that document's page count, so an entry starts
      strictly after the previous one exactly when the previous document has pages.
      The start indices follow the same steps from 1. */
  lemma StartPagesChain(docs: seq<SourceDocument>)
    ensures |docs| > 0 ==> PlannedEntry(docs, 0).startPage == 2 && StartIndex(docs, 0) == 1
    ensures forall i :: 0 <= i < |docs| ==> PlannedEntry(docs, i).startPage == StartIndex(docs, i) + 1
    ensures forall i :: 0 <= i < |docs| - 1 ==>
              PlannedEntry(docs, i + 1).startPage == PlannedEntry(docs, i).startPage + |docs[i].pages|
              && StartIndex(docs, i + 1) == StartIndex(docs, i) + |docs[i].pages|
    ensures forall i :: 0 <= i < |docs| - 1 ==>
              (PlannedEntry(docs, i).startPage < PlannedEntry(docs, i + 1).startPage <==> |docs[i].pages| >= 1)
  {
    if |docs| > 0 {
      assert docs[..0] == [];
    }
    forall i | 0 <= i < |docs| - 1
      ensures PagesBefore(docs, i + 1) == PagesBefore(docs, i) + |docs[i].pages|
    {
      PagesBeforeStep(docs, i);
    }
  }

  /** The merged PDF has the TOC page plus every page of every document. */
  lemma OutputPageCount(docs: seq<SourceDocument>, width: real, height: real, m: MergedPdf)
    requires IsMergeOf(docs, width, height, m)
    ensures |m.pages| == 1 + TotalPages(docs)
  {
    FlattenLength(docs);
  }

  /** Entry `i` of the TOC reads "i+1. ..." and ends with a page number one more than
      the index its bookmark and its link open. */
  lemma TocAgreesWithNavigation(docs: seq<SourceDocument>, width: real, height: real, m: MergedPdf, i: nat)
    requires IsMergeOf(docs, width, height, m)
    requires i < |docs|
    ensures LeadingNumber(m.pages[0].lines[i].text) == i + 1
    ensures TrailingNumber(m.pages[0].lines[i].text) == m.outline[i].target + 1
    ensures m.annotations[i].pageNumber == 0 && m.annotations[i].target == m.outline[i].target
    ensures m.outline[i].title == docs[i].name
  {
    var e := PlannedEntry(docs, i);
    var text := m.pages[0].lines[i].text;
    assert text == EntryLine(i + 1, e);
    EntryLineOrdinal(i + 1, e);
    EntryLinePage(i + 1, e);
  }

  /** The index bookmark `i` opens holds the first page of document `i`, and the
      rest of its pages follow in order. */
  lemma BookmarkOpensDocument(docs: seq<SourceDocument>, width: real, height: real, m: MergedPdf, i: nat, k: nat)
    requires IsMergeOf(docs, width, height, m)
    requires i < |docs| && k < |docs[i].pages|
    ensures m.outline[i].target + k < |m.pages|
    ensures m.pages[m.outline[i].target + k] == docs[i].pages[k]
  {
    FlattenAt(docs, i, k);
    var target := m.outline[i].target;
    assert target == 1 + PagesBefore(docs, i);
    assert m.pages[target + k] == m.pages[1..][PagesBefore(docs, i) + k];
  }

  /** Bookmark `i` (and so link `i`) opens a page that exists exactly when some
      document from `i` on has a page; after trailing empty documents it names
      the index one past the last page. */
  lemma TargetExists(docs: seq<SourceDocument>, width: real, height: real, m: MergedPdf, i: nat)
    requires IsMergeOf(docs, width, height, m)
    requires i < |docs|
    ensures m.outline[i].target < |m.pages| <==> exists j :: i <= j < |docs| && |docs[j].pages| > 0
    ensures m.outline[i].target <= |m.pages|
    ensures m.annotations[i].target == m.outline[i].target
  {
    FlattenLength(docs);
    PagesRemain(docs, i);
    PagesFrom(docs, i);
    assert m.outline[i].target == 1 + PagesBefore(docs, i);
  }

  /** Link `i` lies over the text of entry `i`: its band contains the baseline; it
      is a proper rectangle exactly when the page is wider than 140, and it
      contains the point where the text starts exactly when the page is wider than 150. */
  lemma LinkCoversEntry(docs: seq<SourceDocument>, width: real, height: real, m: MergedPdf, i: nat)
    requires IsMergeOf(docs, width, height, m)
    requires i < |docs|
    ensures m.annotations[i].rect.yLL < m.pages[0].lines[i].y < m.annotations[i].rect.yUR
    ensures (m.annotations[i].rect.xLL < m.annotations[i].rect.xUR
             && m.annotations[i].rect.yLL < m.annotations[i].rect.yUR) <==> width > 140.0
    ensures (m.annotations[i].rect.xLL < m.pages[0].lines[i].x < m.annotations[i].rect.xUR) <==> width > 150.0
  {
  }

  /** Link `i` lies inside the TOC page exactly when the page is at least 140 wide
      and at least 112 + 18*i high: nothing keeps the links of an overflowing
      table of contents on the page. */
  lemma LinkWithinPage(docs: seq<SourceDocument>, width: real, height: real, m: MergedPdf, i: nat)
    requires IsMergeOf(docs, width, height, m)
    requires i < |docs|
    ensures (0.0 <= m.annotations[i].rect.xLL <= m.annotations[i].rect.xUR <= width
             && 0.0 <= m.annotations[i].rect.yLL <= m.annotations[i].rect.yUR <= height)
            <==> (width >= 140.0 && height >= 112.0 + 18.0 * (i as real))
  {
  }

  /** Merging with no documents gives the TOC page alone, with no entries,
      and no bookmarks or links. */
  lemma EmptyMerge(width: real, height: real, m: MergedPdf)
    requires IsMergeOf([], width, height, m)
    ensures |m.pages| == 1 && m.pages[0].lines == []
    ensures m.outline == [] && m.annotations == []
  {
  }

  /** The merged structure is determined by the documents and the page size:
      merging the same list twice gives the same pages, TOC text, bookmarks and links. */
  lemma MergeIsDeterministic(docs: seq<SourceDocument>, width: real, height: real, a: MergedPdf, b: MergedPdf)
    requires IsMergeOf(docs, width, height, a) && IsMergeOf(docs, width, height, b)
    ensures a == b
  {
    assert a.pages[0].lines == b.pages[0].lines;
    assert a.pages[0] == b.pages[0];
    assert a.pages == [a.pages[0]] + a.pages[1..];
    assert b.pages == [b.pages[0]] + b.pages[1..];
    assert a.outline == b.outline;
    assert a.annotations == b.annotations;
  }
}
