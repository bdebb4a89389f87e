# Web element analyzer: counts document and PDF report, in Dafny

The analyzer opens a web page in a headless browser and counts its media and
interactive elements: images, maps, tables, videos, chart graphics, links,
buttons and elements with an `onclick` handler. It collects the results in
the **counts document**, an insertion-ordered mapping from twenty fixed
category names to a count, a list of captured strings, or the extracted
tables. It then writes that document as a paginated PDF report.

This project models the two parts of the program that hold logic:

- **The aggregator** (`count_media_elements`, `aggregator.dfy`). Every
  browser query becomes an input sequence of abstract elements (`QueryResults`).
  Each element has an id, an optional href, its text, its outerHTML and, for
  a table, the cell texts of its rows.
  - The chart graphics of five selectors are gathered by a loop, then
    deduplicated by id.
  - The document is built in three stages: a dict display, an `update`, and
    one key assignment.
  - The href, button-label and onclick lists are computed.
  - The tables are extracted by nested loops.
  - Python's dict is modelled in `dict.dfy` as a sequence of pairs. Assigning
    an existing key replaces the value in place; assigning a new key appends
    the pair.
- **The report renderer** (`generate_pdf` with its inner `start_page`,
  `layout.dfy` and `report.dfy`).
  - `Canvas` is a class that records `setFont`, `drawString` and `showPage`
    as events.
  - `GeneratePdf` walks the document with loops that keep the cursor `y`.
    It is proved to issue exactly the events of a functional layout
    specification, `Report`.
  - `Replay` states the page discipline on its own:
    - where a line may be drawn;
    - that each line lowers the cursor by 16;
    - that a page is broken only when the cursor is below the floor of the
      next line drawn: 100 before a header, 50 before a chunk line;
    - that the next page starts at 732.
  - The lemmas prove that every layout obeys `Replay`, draws one line per
    scalar, header and chunk, and breaks a number of pages bounded both ways
    by that line count.

`text.dfy` holds the string helpers: ASCII `strip` and `title`, the key
humaniser, fixed-step chunking, `" | ".join` and `str()` of a number.

## Model

| member | source | states |
|---|---|---|
| Text.Strip | count_elements.py:69 | the result is empty iff the text is all whitespace; otherwise it is a contiguous part of the text with whitespace only before and after it, and it neither starts nor ends with whitespace |
| Text.TitleAt | UI_Design.py:33 | title-casing keeps the length; a letter is upper-cased when it does not follow a letter and lower-cased when it does; other characters are unchanged |
| Text.UnderscoresToSpaces | UI_Design.py:33 | same length; every `_` becomes a space and every other character is kept |
| Text.HumaniseShape | UI_Design.py:33 | the section title has the key's length and no underscore; it has a space exactly where the key had `_` or a space; other non-letters are kept |
| Text.SlicesCount | UI_Design.py:60 | a text cut with a chunk every 80 characters gives ceil(len/80) chunks, whatever the chunk width |
| Text.SlicesAt | UI_Design.py:60 | chunk k is text[80k : 80k+width], cut short at the end of the text; it starts inside the text, so it is non-empty and at most width long |
| Text.SlicesPartition | UI_Design.py:79 | with width 80 the chunks concatenate back to the text |
| Text.JoinEmpty | UI_Design.py:58 | the row text joined with the separator is empty iff the row has no cell or one empty cell |
| Text.NatToString | UI_Design.py:51 | `str(n)`: at least one character, all decimal digits, no leading zero |
| Text.NatToStringValue | UI_Design.py:51 | reading the digits back gives n |
| Dict.GetMissing | count_elements.py:40-57 | a lookup finds nothing iff the key is absent |
| Dict.GetAt | count_elements.py:40-57 | with distinct keys, looking up the key at position i finds the value at position i |
| Dict.Put | count_elements.py:89 | `d[k] = v` leaves the key order unchanged when k is present and appends k when it is not |
| Dict.PutGet | count_elements.py:89 | after `d[k] = v`, k maps to v and every other key keeps its value |
| Dict.PutFresh | count_elements.py:89 | assigning an absent key appends the pair at the end |
| Dict.UpdateFresh | count_elements.py:64-74 | `update` with new, distinct keys appends the entries in their order |
| Dict.ThreeStages | count_elements.py:40-89 | a display, then an update, then one assignment, with no repeated key, list the pairs in the order given |
| Dict.FirstsSpec | count_elements.py:37 | the first-occurrence list has no repeats, has the same members as the keys, and keeps the order of first occurrence |
| Dict.FirstsLength | count_elements.py:37 | it is no longer than the keys, and exactly as long iff the keys are distinct |
| Dict.FromPairsSpec | count_elements.py:37 | a dict built from pairs has its keys in first-occurrence order and holds the value of the last pair of each key |
| Aggregator.FlattenSpec | count_elements.py:33-35 | the gathered list is as long as the five results together and holds exactly their elements |
| Aggregator.GatherChartSvgs | count_elements.py:33-35 | the `extend` loop yields the five results one after the other |
| Aggregator.DedupByIdSpec | count_elements.py:37 | the deduplicated charts have pairwise distinct ids, exactly the input ids, in first-occurrence order; each is the last element seen with its id; no more elements than the input, and as many iff no id repeats |
| Aggregator.ChartCountBound | count_elements.py:26-52 | svg_charts is at most the sum of the five result lengths, with equality iff no element matched twice |
| Aggregator.LinkHrefs | count_elements.py:68 | at most one href per link; a string is listed iff it is non-empty and some link has it as its href, untrimmed |
| Aggregator.LinkHrefsAppend | count_elements.py:68 | the filter distributes over concatenation, so the hrefs keep the order of their links |
| Aggregator.ButtonLabels | count_elements.py:69 | at most one label per button; each label is non-empty with no surrounding whitespace; a string is listed iff it is some button's stripped text |
| Aggregator.ButtonLabelsAppend | count_elements.py:69 | the labels keep the order of their buttons |
| Aggregator.OnclickTags | count_elements.py:70-73 | one entry per onclick element (nothing filtered); entry i is the first min(100, len) characters of its outerHTML followed by the three-character suffix literal |
| Aggregator.ExtractTables | count_elements.py:77-87 | one table per table element, one row per tr, and one stripped cell text per th/td, in order |
| Aggregator.CountKeysDistinct | count_elements.py:40-89 | the twenty category names are pairwise different |
| Aggregator.DocumentKeys | count_elements.py:40-89 | the document's keys are the twenty names in insertion order, and only tables_data holds tables |
| Aggregator.DocumentLookupsImages | count_elements.py:40-50 | the image, map and table counts are the lengths of their query results |
| Aggregator.DocumentLookupsCharts | count_elements.py:51-57 | videos, the deduplicated svg_charts, canvas, mermaid and svg shapes are counted by length |
| Aggregator.DocumentLookupsClickable | count_elements.py:64-89 | the link, button and onclick counts and lists, and tables_data, are what the later stages stored |
| Aggregator.CountMediaElements | count_elements.py:8-91 | the result has exactly the twenty keys, tables_data last; every scalar is the length of its query result; the three lists are as above; tables_data is the extracted tables; when both table queries agree, `tables` equals the number of extracted tables |
| Layout.ItemChunksSpec | UI_Design.py:78-79 | the chunks of "- " + item concatenate back to it; each has 1 to 80 characters; there are ceil((len(item)+2)/80) |
| Layout.RowChunksSpec | UI_Design.py:58-60 | row chunk k is row_text[80k : 80k+180] (chunks overlap); there are ceil(len/80); each has 1 to 180 characters; none when the row has no cell or one empty cell |
| Layout.MaxRowLengthSpec | UI_Design.py:50 | num_cols bounds every row's length, is 0 for an empty table, and is attained by some row otherwise |
| Report.ReplayAppend | UI_Design.py:32-92 | replaying two event runs one after the other is replaying their concatenation, unless a break at the end of the first still waits for a line and the second opens with a chunk line |
| Report.BreakRule | UI_Design.py:36-38 | a page break followed by a header line is allowed iff the cursor was below 100, followed by a chunk line iff it was below 50; a line without a break is allowed iff the cursor is at or above that floor |
| Report.ReplayBudget | UI_Design.py:36-92 | over a disciplined replay the cursor stays between 34 and 732, and the page breaks are bounded above and below by the number of lines drawn |
| Report.CountsAppend | UI_Design.py:32-92 | draw and page-break counts add up over concatenated logs |
| Report.AdvanceTrans | UI_Design.py:32-92 | two disciplined stretches of drawing, each of whose breaks is followed by its own line, make one; their line counts add and the first line drawn is the first stretch's |
| Report.OpenTrans | UI_Design.py:32-92 | two stretches that may end on a break waiting for its line, and that open with no chunk line, make one |
| Report.RoomAdvance | UI_Design.py:36-38 | the page-break check alone keeps the discipline and draws nothing; afterwards the cursor is at or above the threshold; a break leaves Helvetica 10 selected |
| Report.RoomLineAdvance | UI_Design.py:62-66 | a check against 100 followed by a header, or against 50 followed by a chunk line, keeps the discipline and draws that one line first |
| Report.ChunksAdvance | UI_Design.py:61-66 | the chunk loop draws exactly the chunks, in order, one line each at x = 60 and y ≥ 50; it breaks the page before a chunk only when the cursor is below 50, and keeps Helvetica 10 when it was selected |
| Report.ItemsAdvance | UI_Design.py:76-85 | the item lines drawn number the sum of the per-item chunk counts |
| Report.RowsAdvance | UI_Design.py:57-66 | the row lines drawn number the sum of the per-row chunk counts |
| Report.TableAdvance | UI_Design.py:43-67 | one table draws its header first, then its row lines, and leaves Helvetica 10 selected |
| Report.TablesAdvance | UI_Design.py:42-67 | the tables section draws one header and the row lines per table |
| Report.ListAdvance | UI_Design.py:70-86 | a list section draws its header and its item lines under the discipline |
| Report.SectionAdvance | UI_Design.py:32-92 | every section keeps the discipline, draws its expected line count and ends with Helvetica 10 selected; only an empty tables_data can end on a waiting break, and no chunk line comes first |
| Report.SectionsAdvance | UI_Design.py:32-92 | the sections, in mapping order, draw the sum of their line counts under the discipline |
| Report.SectionOpening | UI_Design.py:41-92 | dispatch: a scalar draws exactly its one "• Title: n" line; a list draws "• Title (n items):", switches to the oblique font and ends by restoring Helvetica 10; tables_data draws "• Table 1 (…)" first, or nothing when it holds no table |
| Report.ListOpening | UI_Design.py:70-86 | a list section after its check starts with its header line at the cursor, then selects the oblique font, and ends by selecting Helvetica 10 |
| Report.TablesOpening | UI_Design.py:42-48 | the tables after the check start with the header of table 1 at the cursor |
| Report.ReplayBounds | UI_Design.py:36-92 | every line of a disciplined log lies at y ≤ 732; headers lie at x = 40, y ≥ 100 and chunks at x = 60, y ≥ 50 |
| Report.ReportLayout | UI_Design.py:9-92 | the report opens with the Helvetica 10 reset, the bold title at (40, 732) and the URL line at (40, 702); every later line is within the bounds above; lines drawn = 2 + the document's line count; pages = 1 + page breaks, where 633 × breaks ≤ 50 + 16 × lines and 16 × lines ≤ 648 + 698 × breaks; Helvetica 10 selected at the end |
| Report.Canvas.constructor | UI_Design.py:14 | a new canvas is on page 1 with the page default font and nothing drawn |
| Report.Canvas.SetFont | UI_Design.py:11 | selects the font and logs the change |
| Report.Canvas.DrawString | UI_Design.py:20 | logs the line, with page and font unchanged |
| Report.Canvas.ShowPage | UI_Design.py:37 | moves to the next page, restores the page default font and logs the break |
| Report.StartPageOn | UI_Design.py:10-12 | `start_page` selects Helvetica 10 and returns 732, as StartPage specifies |
| Report.BreakBelow | UI_Design.py:36-38 | the page-break check does what Room specifies |
| Report.DrawChunks | UI_Design.py:61-66 | the chunk loop issues exactly the events of Chunks |
| Report.DrawRows | UI_Design.py:57-66 | the row loop issues exactly the events of Rows |
| Report.DrawTable | UI_Design.py:43-67 | one table issues exactly the events of TableBlock |
| Report.DrawTables | UI_Design.py:42-67 | the table loop, numbered from 1, issues exactly the events of Tables |
| Report.DrawItems | UI_Design.py:76-85 | the item loop issues exactly the events of Items |
| Report.DrawSection | UI_Design.py:33-92 | one pass of the entry loop issues exactly the events of Section |
| Report.GeneratePdf | UI_Design.py:9-94 | the canvas ends with exactly the event log, page and font of the Report specification |
| Report.RunCheck | UI_Design.py:153-156 | the aggregator's document always satisfies the renderer's precondition; the resulting canvas has 2 + the document's line count lines and 1 + page breaks pages |

## Left out

- The browser session is not modelled: launching headless Chrome, navigation, the readiness wait and `driver.quit` are foreign calls. Every `find_elements` result is an input.
- The error paths are not modelled. A readiness timeout, or a `find_elements`, `get_attribute` or `.text` call that raises, aborts `count_media_elements` (count_elements.py:14-91). In `run_check` that exception means no PDF is written. In the model every query succeeds, and `Report.RunCheck` always renders.
- CSS selector semantics are not modelled. Each selector is an uninterpreted query whose ordered result is a field of `QueryResults`.
- What Selenium's `get_attribute("href")` returns is not modelled: an absent attribute is `None` and a present one is taken as it is.
- Text.Strip: models `str.strip()` for ASCII whitespace only (space, `\t`–`\r`, `\x1c`–`\x1f`). Unicode whitespace such as U+00A0 is not stripped.
- Text.TitleAt: models `str.title()` for ASCII letters only. Other cased characters are left unchanged, and they do not count as letters for the character after them: `"éa".title()` is `"Éa"`, while the model gives `"éA"`. The category names are ASCII, so no drawn line differs.
- reportlab's fonts, PDF bytes and `c.save()` are not modelled. The canvas is an event log.
- `save_path` is not modelled, since it only names the output file.
- Report.Canvas.ShowPage: takes reportlab's page default font to be Helvetica 12. `start_page` selects Helvetica 10 right after every page break, so this choice changes no drawn line.
- Report.GeneratePdf: requires that exactly the `tables_data` entry holds tables. The value datatype is closed, and its only caller passes the aggregator's output, which `Report.RunCheck` proves well shaped. Inputs where another key holds a list of tables are not modelled. The source would draw those tables through its list branch. Nor are inputs where `tables_data` holds a list of strings or a count. The source would loop over the strings as if they were tables, and would raise a TypeError on a count.
- The tkinter `App` class is not modelled, except for the `try` body of `run_check` (UI_Design.py:153-156), which is `Report.RunCheck`. Its `except` branch (UI_Design.py:158-160), the status label, the message boxes and the `threading.Thread` dispatch are not modelled: they are UI and concurrency.
- The Robot Framework runner is not modelled: it is an external process.
- The console printing under `__main__` is not modelled: it is I/O.
- Report.ReportLayout: gives no closed form for the page count. It bounds the page breaks both ways by the line count, and `Replay` fixes where each break falls.
