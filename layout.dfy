/**
 * The pure parts of the report renderer of UI_Design.py: page geometry,
 * fonts, the drawing events of the canvas, the texts of the header lines,
 * the wrapping of list items and table rows into chunks, and the table
 * dimensions.
 */
module Layout {
  import opened Text
  import opened Aggregator

  /** reportlab's letter page is 792 points high; the cursor starts 60 points below the top edge. */
  const PageHeight: int := 792
  const TopY: int := PageHeight - 60
  const LineHeight: int := 16
  const Margin: int := 40
  const Indent: int := 20
  /** A section or table header is never started below this cursor position. */
  const SectionFloor: int := 100
  /** A wrapped chunk line is never drawn below this cursor position. */
  const LineFloor: int := 50
  /** The cursor drops by these after the report title and after the URL line. */
  const TitleGap: int := 30
  const UrlGap: int := 20

  datatype Font = Font(name: string, size: nat)

  const Regular: Font := Font("Helvetica", 10)
  const Bold: Font := Font("Helvetica-Bold", 16)
  const Oblique: Font := Font("Helvetica-Oblique", 9)
  /** The font a reportlab canvas starts every page with. */
  const PageDefault: Font := Font("Helvetica", 12)

  /** What the renderer does to the canvas. */
  datatype Event = SetFont(font: Font) | DrawString(x: int, y: int, text: string) | ShowPage

  const Bullet: string := "\U{2022}"
  const Times: string := "\U{00D7}"
  const ReportTitle: string := "Element Counts Report"
  const RowSeparator: string := " | "
  /** List items are cut into 80-character chunks; table rows into 180-character chunks, one every 80. */
  const ItemWidth: nat := 80
  const RowWidth: nat := 180

  /** The chunks drawn for one list item: `text = f"- {item}"` cut every 80 characters. */
  function ItemChunks(item: string): seq<string>
  {
    Slices("- " + item, ItemWidth)
  }

  /** The chunks drawn for one table row: the cells joined by " | ", a 180-character window every 80 characters. */
  function RowChunks(row: Row): seq<string>
  {
    Slices(Join(row, RowSeparator), RowWidth)
  }

  /**
   * Every item chunk holds at most 80 characters and none is empty, the
   * chunks put back together give "- " + item, and there are ChunkCount of them.
   */
  lemma ItemChunksSpec(item: string)
    ensures Concat(ItemChunks(item)) == "- " + item
    ensures |ItemChunks(item)| == ChunkCount(|item| + 2)
    ensures forall k :: 0 <= k < |ItemChunks(item)| ==> 0 < |ItemChunks(item)[k]| <= ItemWidth
  {
    SlicesPartition("- " + item);
    SlicesCount("- " + item, ItemWidth);
    forall k | 0 <= k < |ItemChunks(item)| ensures 0 < |ItemChunks(item)[k]| <= ItemWidth {
      SlicesAt("- " + item, ItemWidth, k);
    }
  }

  /**
   * Row chunk k is text[80k : 80k + 180] of the joined row text, so
   * consecutive chunks overlap by 100 characters; there are ceil(|text|/80)
   * of them, each at most 180 long, and none at all when the row has no
   * cell or a single empty one.
   */
  lemma RowChunksSpec(row: Row)
    ensures var text := Join(row, RowSeparator);
      && |RowChunks(row)| == ChunkCount(|text|)
      && (forall k :: 0 <= k < |RowChunks(row)| ==>
            && ChunkStep * k < |text|
            && RowChunks(row)[k] == text[ChunkStep * k .. Min(ChunkStep * k + RowWidth, |text|)]
            && 0 < |RowChunks(row)[k]| <= RowWidth)
      && (RowChunks(row) == [] <==> row == [] || row == [[]])
  {
    var text := Join(row, RowSeparator);
    SlicesCount(text, RowWidth);
    JoinEmpty(row, RowSeparator);
    forall k | 0 <= k < |RowChunks(row)|
      ensures ChunkStep * k < |text|
      ensures RowChunks(row)[k] == text[ChunkStep * k .. Min(ChunkStep * k + RowWidth, |text|)]
      ensures 0 < |RowChunks(row)[k]| <= RowWidth
    {
      SlicesAt(text, RowWidth, k);
    }
  }

  /** `max((len(r) for r in table), default=0)`: the widest row's cell count. */
  function MaxRowLength(table: Table): nat
  {
    if table == [] then 0
    else
      var rest := MaxRowLength(table[1..]);
      if |table[0]| >= rest then |table[0]| else rest
  }

  /** No row is wider than MaxRowLength, an empty table has width 0, and otherwise some row attains it. */
  lemma {:induction false} MaxRowLengthSpec(table: Table)
    ensures forall r :: r in table ==> |r| <= MaxRowLength(table)
    ensures table == [] ==> MaxRowLength(table) == 0
    ensures table != [] ==> exists r :: r in table && |r| == MaxRowLength(table)
  {
    if table != [] {
      MaxRowLengthSpec(table[1..]);
      assert forall r :: r in table ==> r == table[0] || r in table[1..];
      if |table[0]| < MaxRowLength(table[1..]) {
        var r :| r in table[1..] && |r| == MaxRowLength(table[1..]);
        assert r in table;
      }
    }
  }

  /** `f"{bullet} Table {tbl_idx} ({num_rows}×{num_cols}):"`. */
  function TableHeader(index: nat, table: Table): string
  {
    Bullet + " Table " + NatToString(index) + " (" + NatToString(|table|) + Times
      + NatToString(MaxRowLength(table)) + "):"
  }

  /** `f"{bullet} {key_title} ({len(val)} items):"`. */
  function ListHeader(title: string, count: nat): string
  {
    Bullet + " " + title + " (" + NatToString(count) + " items):"
  }

  /** `f"{bullet} {key_title}: {val}"`. */
  function ScalarLine(title: string, n: nat): string
  {
    Bullet + " " + title + ": " + NatToString(n)
  }
}
