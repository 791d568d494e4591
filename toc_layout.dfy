/** Layout of the single table-of-contents page: a heading, then one line per
    entry, each 18 units below the one before. */
module TocLayout {
  import opened Text
  import opened Documents

  /** One line of the table of contents: a document title and the 1-based page
      number a reader sees, counting the table of contents itself as page 1. */
  datatype TocEntry = TocEntry(title: string, startPage: nat)

  const TocTitle: string := "목차 (Table of Contents)"

  /** The baseline of the entry with 0-based position `i`. */
  function EntryY(height: real, i: nat): real {
    height - 110.0 - 18.0 * (i as real)
  }

  /** The text of an entry line, `"{ordinal}. {title}  ......  p. {startPage}"`. */
  function EntryLine(ordinal: nat, e: TocEntry): string {
    NatToString(ordinal) + ". " + e.title + "  ......  p. " + NatToString(e.startPage)
  }

  /** An entry line starts with its ordinal. */
  lemma EntryLineOrdinal(ordinal: nat, e: TocEntry)
    ensures LeadingNumber(EntryLine(ordinal, e)) == ordinal
  {
    var d := NatToString(ordinal);
    var rest := ". " + e.title + "  ......  p. " + NatToString(e.startPage);
    assert EntryLine(ordinal, e) == d + rest;
    LeadingDigitsOf(d, rest);
    NatToStringRoundTrip(ordinal);
  }

  /** An entry line ends with the start page it was made from, whatever the title. */
  lemma EntryLinePage(ordinal: nat, e: TocEntry)
    ensures TrailingNumber(EntryLine(ordinal, e)) == e.startPage
  {
    var front := NatToString(ordinal) + ". " + e.title + "  ......  p. ";
    var d := NatToString(e.startPage);
    assert EntryLine(ordinal, e) == front + d;
    TrailingDigitsOf(front, d);
    NatToStringRoundTrip(e.startPage);
  }

  /** Draws the heading and the entry lines on one page and records each entry's
      baseline; returns the page, those baselines and the page width. */
  method CreateTocPage(entries: seq<TocEntry>, width: real, height: real)
      returns (toc: Page, linkPositions: seq<real>, pageWidth: real)
    ensures toc.TocPage? && toc.heading == TextLine(72.0, height - 72.0, TocTitle)
    ensures |toc.lines| == |entries|
    ensures forall i :: 0 <= i < |entries| ==>
              toc.lines[i] == TextLine(80.0, EntryY(height, i), EntryLine(i + 1, entries[i]))
    ensures |linkPositions| == |entries|
    ensures forall i :: 0 <= i < |entries| ==> linkPositions[i] == toc.lines[i].y
    ensures forall i, j :: 0 <= i < j < |linkPositions| ==> linkPositions[j] < linkPositions[i]
    ensures pageWidth == width
  {
    var y := height - 110.0;
    var lines: seq<TextLine> := [];
    linkPositions := [];
    var i := 0;
    while i < |entries|
      invariant 0 <= i <= |entries|
      invariant y == EntryY(height, i)
      invariant |lines| == i && |linkPositions| == i
      invariant forall k :: 0 <= k < i ==>
                  lines[k] == TextLine(80.0, EntryY(height, k), EntryLine(k + 1, entries[k]))
      invariant forall k :: 0 <= k < i ==> linkPositions[k] == EntryY(height, k)
    {
      var line := EntryLine(i + 1, entries[i]);
      lines := lines + [TextLine(80.0, y, line)];
      linkPositions := linkPositions + [y];
      y := y - 18.0;
      i := i + 1;
    }
    toc := TocPage(TextLine(72.0, height - 72.0, TocTitle), lines);
    pageWidth := width;
  }
}
