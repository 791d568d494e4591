# PDF merge with a table of contents: page-index model

This project models the page accounting of a tool that merges uploaded PDF files
into one document. The merged document starts with a generated table-of-contents
(TOC) page. Each uploaded file gets a TOC line, an outline bookmark and a
clickable link on the TOC page.

Two numberings are involved:

- The TOC prints 1-based "human" page numbers. The TOC page itself is page 1.
- The writer uses 0-based page indices. The TOC page is index 0.

Everything hangs on one invariant. The page number printed for a file is one more
than the index that its bookmark and its link open, and that index holds the
file's first page.

Modules:

- `Text` (text.dfy): the decimal numeral of a natural number, as Python's `str()`
  writes it inside an f-string. Also how the leading or trailing number of a line
  reads back.
- `Documents` (documents.dfy): pages and uploaded documents. A document is a name
  and a sequence of opaque pages. `Flatten` concatenates the pages of many
  documents, and `TotalPages`/`PagesBefore` count them.
- `PdfOutput` (pdf_output.dfy): the PDF writer, as a class with three growing
  sequences: pages, outline bookmarks, and link annotations.
- `TocLayout` (toc_layout.dfy): `create_toc_page`. It writes a heading, then one
  line per entry at baseline `height - 110 - 18*i`, recording each baseline.
- `Merge` (merge.dfy): `merge_pdfs_with_toc`, in four steps:
  1. planning the start pages with a running counter;
  2. appending the TOC page and then every document's pages, recording start
     indices;
  3. adding the bookmarks;
  4. adding the links.

  `IsMergeOf` states what the whole merge produces. The lemmas after it derive
  the invariant and the other properties from it.

Page width and height are `real` parameters, not the A4 constants. The merge
reports its result as the writer's final structure (`MergedPdf`: pages, outline
and annotations) instead of serialised bytes.

The model follows the code in what it does not check:

- A document with zero pages is accepted, not rejected. It gets its own TOC line
  and bookmark. Its start page equals the next document's start page.
- Having more entries than fit on one TOC page is not rejected either: the
  baselines keep decreasing, below the bottom of the page if need be. Only the
  first `floor((height - 112) / 18) + 1` links lie inside the page, which is 41 on
  A4 (`Merge.LinkWithinPage`); later ones lie partly or wholly below it.
- Duplicate file names are neither warned about nor rejected.

## Model

| member | source | states |
|---|---|---|
| Text.NatToString | PDF_merge.py:31 | the numeral of an integer in an f-string is a non-empty string of digits with no leading zero |
| Text.NatToStringRoundTrip | PDF_merge.py:31 | the numeral written for a number reads back as that number |
| TocLayout.EntryLineOrdinal | PDF_merge.py:30-31 | the TOC line for ordinal `n` starts with the number `n`, whatever the title |
| TocLayout.EntryLinePage | PDF_merge.py:31 | the TOC line for an entry ends with the number equal to that entry's start page, whatever the title |
| TocLayout.CreateTocPage | PDF_merge.py:20-40 | the TOC page has the heading at (72, height-72) and entry `i` (0-based) drawn at (80, height-110-18i) with text `"{i+1}. {title}  ......  p. {start_page}"`; one position per entry, equal to that line's baseline and strictly decreasing; the returned width is the page width |
| Documents.FlattenLength | PDF_merge.py:83-87 | the concatenated pages of the documents number the sum of their page counts |
| Documents.PagesBeforeStep | PDF_merge.py:68 | advancing past document `i` adds exactly its page count to the pages counted so far |
| Documents.FlattenStep | PDF_merge.py:86-87 | taking one more document appends exactly its pages, in order |
| Documents.FlattenAt | PDF_merge.py:83-87 | in the concatenation, page `k` of document `i` sits at the number of pages before document `i` plus `k` |
| PdfOutput.Writer.constructor | PDF_merge.py:75 | a new writer has no pages, no bookmarks and no annotations |
| PdfOutput.Writer.AddPage | PDF_merge.py:78-87 | adding a page appends it at the end and leaves bookmarks and annotations alone |
| PdfOutput.Writer.AddOutlineItem | PDF_merge.py:91 | adding an outline item appends a bookmark (title, page index) and changes nothing else |
| PdfOutput.Writer.AddAnnotation | PDF_merge.py:107-113 | adding an annotation appends (page number, rect, target) and changes nothing else |
| Merge.PlanEntries | PDF_merge.py:57-68 | one entry per document, in upload order, titled with the file name; entry `i` starts on page 2 plus the page counts of the documents before it |
| Merge.AssemblePages | PDF_merge.py:77-87 | the writer gains the TOC page and then every page of every document, in order, nothing dropped; document `i`'s recorded start index is the writer's earlier length plus 1 plus the pages before it |
| Merge.AddBookmarks | PDF_merge.py:89-91 | one bookmark per (document, start index) pair, up to the shorter list, in order, labelled with the file name and opening the recorded index; pages and annotations unchanged |
| Merge.AddLinks | PDF_merge.py:93-113 | one annotation per (entry, position) pair, up to the shorter list, on page 0, with rect (70, y-2, width-70, y+12), opening `start_page_indices[i]`; the source's indexing requires enough start indices; pages and outline unchanged |
| Merge.MergePdfsWithToc | PDF_merge.py:43-119 | the merged structure is the TOC page followed by all document pages in order, with one bookmark and one page-0 link per document, both opening that document's start index |
| Merge.StartPagesChain | PDF_merge.py:59-68 | the first start page is 2 and the first start index is 1; each start page is its start index plus 1; each next start page and start index is the previous one plus the previous document's page count; a start page is strictly greater than the previous one exactly when the previous document has at least one page |
| Merge.OutputPageCount | PDF_merge.py:78-87 | the merged document has 1 + the sum of the page counts pages |
| Merge.TocAgreesWithNavigation | PDF_merge.py:57-113 | TOC line `i` starts with ordinal `i+1`; it ends with the number one more than the index its bookmark opens; link `i` is on page 0 and opens the same index as bookmark `i`; bookmark `i` is labelled with file `i`'s name |
| Merge.BookmarkOpensDocument | PDF_merge.py:82-91 | the page at bookmark `i`'s target plus `k` is page `k` of document `i` |
| Merge.TargetExists | PDF_merge.py:84-96 | bookmark `i` and link `i` open the same index, which is at most the page count; it is a page that exists exactly when some document from `i` on has at least one page, and otherwise it is the index one past the last page |
| Documents.TotalPagesAppend | PDF_merge.py:68 | the page count of two document lists put together is the sum of their page counts |
| Documents.TotalPagesPositive | PDF_merge.py:83-87 | a list of documents contributes pages exactly when one of its documents has a page |
| Documents.PagesFrom | PDF_merge.py:83-87 | the pages of the documents from `i` on are the total less the pages before document `i` |
| Documents.PagesRemain | PDF_merge.py:83-87 | some page comes after the pages before document `i` exactly when a document from `i` on has a page |
| Merge.LinkCoversEntry | PDF_merge.py:100-105 | link `i`'s band contains the baseline entry `i` is drawn on (lines 32-33); the rect is well formed exactly when width > 140; it contains the entry text's starting point exactly when width > 150 |
| Merge.LinkWithinPage | PDF_merge.py:100-105 | link `i`'s rectangle lies inside the TOC page exactly when the width is at least 140 and the height is at least 112 + 18i |
| Merge.EmptyMerge | PDF_merge.py:78-91 | with no documents the output is the TOC page alone, with no entry lines, no bookmarks and no links |
| Merge.MergeIsDeterministic | PDF_merge.py:43-119 | the merged structure is fixed by the documents and the page size, so merging the same list twice gives the same pages, TOC text, bookmarks and links |

## Left out

- The upload and download interface (`main`, PDF_merge.py:122-147): it is UI.
- Reading uploaded files and counting their pages (PDF_merge.py:44-55). This
  is done by a PDF library. A document arrives as a name and a sequence of opaque
  pages.
- Drawing with the canvas: fonts (Helvetica-Bold 18 for the heading, Helvetica 12
  for entries), `showPage`, `save`. The model keeps only each drawn string and its
  position.
- The TOC page's round trip through PDF bytes and a reader (PDF_merge.py:37-40,
  72, 78): the model passes the rendered TOC page on as exactly one page.
- Serialising the writer to bytes (PDF_merge.py:116-119) and how annotations are
  encoded. The result is the writer's final pages, outline and annotations.
- How the writer library treats an outline item or a link whose target page does
  not exist. The merge does produce such targets: a document with zero pages at
  the end of the list (or a list of only empty documents) gets a bookmark and a
  link to index `|m.pages|`, one past the last page (`Merge.TargetExists`). The
  model records those targets as the code computes them.
- Floating-point rounding: the A4 constants and the geometry are exact reals here,
  and the page size is a parameter.
