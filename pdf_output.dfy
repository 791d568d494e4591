/** The part of the PDF writer the merge uses: a page list that grows at the end,
    a flat outline (bookmarks) and the link annotations placed on pages. */
module PdfOutput {
  import opened Documents

  /** A rectangle [xLL, yLL, xUR, yUR] in page coordinates. */
  datatype Rect = Rect(xLL: real, yLL: real, xUR: real, yUR: real)

  /** A top-level outline entry that opens page `target` (0-based). */
  datatype Bookmark = Bookmark(title: string, target: nat)

  /** An internal link: clicking `rect` on page `pageNumber` opens page `target`. */
  datatype Annotation = Annotation(pageNumber: nat, rect: Rect, target: nat)

  class Writer {
    var pages: seq<Page>
    var outline: seq<Bookmark>
    var annotations: seq<Annotation>

    constructor ()
      ensures pages == [] && outline == [] && annotations == []
    {
      pages, outline, annotations := [], [], [];
    }

    method AddPage(p: Page)
      modifies this
      ensures pages == old(pages) + [p]
      ensures outline == old(outline) && annotations == old(annotations)
    {
      pages := pages + [p];
    }

    method AddOutlineItem(title: string, pageIndex: nat)
      modifies this
      ensures outline == old(outline) + [Bookmark(title, pageIndex)]
      ensures pages == old(pages) && annotations == old(annotations)
    {
      outline := outline + [Bookmark(title, pageIndex)];
    }

    method AddAnnotation(pageNumber: nat, rect: Rect, target: nat)
      modifies this
      ensures annotations == old(annotations) + [Annotation(pageNumber, rect, target)]
      ensures pages == old(pages) && outline == old(outline)
    {
      annotations := annotations + [Annotation(pageNumber, rect, target)];
    }
  }
}
