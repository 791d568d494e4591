/** The documents a merge works on. A page's content is opaque, except for the
    generated table-of-contents page, whose text lines the model keeps. */
module Documents {

  /** A string drawn at point (x, y) of a page; the origin is the bottom-left corner. */
  datatype TextLine = TextLine(x: real, y: real, text: string)

  datatype Page =
    | TocPage(heading: TextLine, lines: seq<TextLine>)
    | SourcePage(handle: nat)

  /** An uploaded file: its name and its pages in order (`num_pages` is `|pages|`). */
  datatype SourceDocument = SourceDocument(name: string, pages: seq<Page>)

  /** The number of pages of all `docs` together. */
  function TotalPages(docs: seq<SourceDocument>): nat {
    if docs == [] then 0 else TotalPages(docs[..|docs| - 1]) + |docs[|docs| - 1].pages|
  }

  /** The number of pages of the documents that come before document `i`. */
  function PagesBefore(docs: seq<SourceDocument>, i: nat): nat
    requires i <= |docs|
  {
    TotalPages(docs[..i])
  }

  /** The pages of all `docs`, document after document. */
  function Flatten(docs: seq<SourceDocument>): seq<Page> {
    if docs == [] then [] else Flatten(docs[..|docs| - 1]) + docs[|docs| - 1].pages
  }

  lemma {:induction false} FlattenLength(docs: seq<SourceDocument>)
    ensures |Flatten(docs)| == TotalPages(docs)
    decreases |docs|
  {
    if docs != [] {
      FlattenLength(docs[..|docs| - 1]);
    }
  }

  /** Taking one more document adds its page count. */
  lemma PagesBeforeStep(docs: seq<SourceDocument>, i: nat)
    requires i < |docs|
    ensures PagesBefore(docs, i + 1) == PagesBefore(docs, i) + |docs[i].pages|
  {
    assert docs[..i + 1][..i] == docs[..i];
  }

  /** Taking one more document appends its pages. */
  lemma FlattenStep(docs: seq<SourceDocument>, i: nat)
    requires i < |docs|
    ensures Flatten(docs[..i + 1]) == Flatten(docs[..i]) + docs[i].pages
  {
    assert docs[..i + 1][..i] == docs[..i];
  }

  /** Page `k` of document `i` sits right after the pages of the documents before it. */
  lemma {:induction false} FlattenAt(docs: seq<SourceDocument>, i: nat, k: nat)
    requires i < |docs| && k < |docs[i].pages|
    ensures PagesBefore(docs, i) + k < |Flatten(docs)|
    ensures Flatten(docs)[PagesBefore(docs, i) + k] == docs[i].pages[k]
    decreases |docs|
  {
    var init := docs[..|docs| - 1];
    FlattenLength(init);
    if i == |docs| - 1 {
      assert docs[..i] == init;
    } else {
      assert init[..i] == docs[..i];
      FlattenAt(init, i, k);
    }
  }

  /** Page counts add up over a concatenation of document lists. */
  lemma {:induction false} TotalPagesAppend(a: seq<SourceDocument>, b: seq<SourceDocument>)
    ensures TotalPages(a + b) == TotalPages(a) + TotalPages(b)
    decreases |b|
  {
    if b == [] {
      assert a + b == a;
    } else {
      var init := b[..|b| - 1];
      assert (a + b)[..|a + b| - 1] == a + init;
      TotalPagesAppend(a, init);
    }
  }

  /** A list of documents has pages exactly when one of its documents has a page. */
  lemma {:induction false} TotalPagesPositive(docs: seq<SourceDocument>)
    ensures TotalPages(docs) > 0 <==> exists j :: 0 <= j < |docs| && |docs[j].pages| > 0
    decreases |docs|
  {
    if docs != [] {
      var init := docs[..|docs| - 1];
      TotalPagesPositive(init);
      if TotalPages(init) > 0 {
        var j :| 0 <= j < |init| && |init[j].pages| > 0;
        assert docs[j] == init[j];
      }
      if exists j :: 0 <= j < |docs| && |docs[j].pages| > 0 {
        var j :| 0 <= j < |docs| && |docs[j].pages| > 0;
        if j < |init| {
          assert init[j] == docs[j];
        }
      }
    }
  }

  /** The pages from document `i` on are the total less the pages before it. */
  lemma PagesFrom(docs: seq<SourceDocument>, i: nat)
    requires i <= |docs|
    ensures TotalPages(docs) == PagesBefore(docs, i) + TotalPages(docs[i..])
  {
    assert docs == docs[..i] + docs[i..];
    TotalPagesAppend(docs[..i], docs[i..]);
  }

  /** Some page follows document `i`'s start exactly when a document from `i` on has a page. */
  lemma PagesRemain(docs: seq<SourceDocument>, i: nat)
    requires i <= |docs|
    ensures PagesBefore(docs, i) < TotalPages(docs) <==> exists j :: i <= j < |docs| && |docs[j].pages| > 0
  {
    PagesFrom(docs, i);
    var rest := docs[i..];
    TotalPagesPositive(rest);
    if exists j :: i <= j < |docs| && |docs[j].pages| > 0 {
      var j :| i <= j < |docs| && |docs[j].pages| > 0;
      assert rest[j - i] == docs[j];
    }
    if exists j :: 0 <= j < |rest| && |rest[j].pages| > 0 {
      var j :| 0 <= j < |rest| && |rest[j].pages| > 0;
      assert docs[i + j] == rest[j];
    }
  }
}
