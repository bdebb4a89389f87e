/**
 * generate_pdf of UI_Design.py: the counts document written onto the pages
 * of a canvas, section after section, with a page break whenever the cursor
 * runs too low.
 *
 * The layout is first stated as functions on a `Pen` (cursor, page number,
 * current font and the events issued so far); `GeneratePdf` drives a
 * `Canvas` object with loops and is proved to issue exactly the events of
 * that specification.  `Replay` is an independent statement of the page
 * discipline (where a line may be drawn, when a page may be broken), and the
 * lemmas prove that every layout obeys it and draws the expected number of
 * lines.
 */
module Report {
  import opened Wrappers
  import opened Text
  import opened Aggregator
  import opened Layout
  import Dict

  datatype Pen = Pen(y: int, page: nat, font: Font, log: seq<Event>)

  // ------------------------------------------------------------ specification

  /** `start_page`: select Helvetica 10 and put the cursor back at the top. */
  function StartPage(p: Pen): Pen
  {
    p.(y := TopY, font := Regular, log := p.log + [SetFont(Regular)])
  }

  /** `c.showPage(); y = start_page(c)`; showPage gives the next page reportlab's default font. */
  function NewPage(p: Pen): Pen
  {
    StartPage(p.(page := p.page + 1, font := PageDefault, log := p.log + [ShowPage]))
  }

  /** `if y < floor: c.showPage(); y = start_page(c)`. */
  function Room(p: Pen, floor: int): Pen
  {
    if p.y < floor then NewPage(p) else p
  }

  function WithFont(p: Pen, f: Font): Pen
  {
    p.(font := f, log := p.log + [SetFont(f)])
  }

  /** `c.drawString(x, y, text); y -= gap`. */
  function DrawAt(p: Pen, x: int, text: string, gap: int): Pen
  {
    p.(y := p.y - gap, log := p.log + [DrawString(x, p.y, text)])
  }

  function Line(p: Pen, x: int, text: string): Pen
  {
    DrawAt(p, x, text, LineHeight)
  }

  /** The title and URL lines at the top of the first page. */
  function Header(url: string): Pen
  {
    var p := StartPage(Pen(0, 1, PageDefault, []));
    var p := DrawAt(WithFont(p, Bold), Margin, ReportTitle, TitleGap);
    DrawAt(WithFont(p, Regular), Margin, "URL: " + url, UrlGap)
  }

  /** The inner `for chunk in chunks` loop: each chunk on its own indented line, breaking the page below 50. */
  function Chunks(p: Pen, chunks: seq<string>): Pen
    decreases |chunks|
  {
    if chunks == [] then p
    else Chunks(Line(Room(p, LineFloor), Margin + Indent, chunks[0]), chunks[1..])
  }

  function Items(p: Pen, items: seq<string>): Pen
    decreases |items|
  {
    if items == [] then p
    else Items(Chunks(p, ItemChunks(items[0])), items[1..])
  }

  function Rows(p: Pen, rows: Table): Pen
    decreases |rows|
  {
    if rows == [] then p
    else Rows(Chunks(p, RowChunks(rows[0])), rows[1..])
  }

  /** One table: its header line, then its rows in the oblique font. */
  function TableBlock(p: Pen, index: nat, table: Table): Pen
  {
    var p := Line(Room(p, SectionFloor), Margin, TableHeader(index, table));
    WithFont(Rows(WithFont(p, Oblique), table), Regular)
  }

  /** `for tbl_idx, table in enumerate(val, start=1)`. */
  function Tables(p: Pen, index: nat, tables: seq<Table>): Pen
    decreases |tables|
  {
    if tables == [] then p
    else Tables(TableBlock(p, index, tables[0]), index + 1, tables[1..])
  }

  /** One entry of the counts document: a table listing, a list, or one scalar line. */
  function Section(p: Pen, key: string, v: Value): Pen
    requires v.TableList? <==> key == TablesDataKey
  {
    var p := Room(p, SectionFloor);
    if key == TablesDataKey then
      Tables(p, 1, v.tables)
    else if v.StringList? then
      var p := Line(p, Margin, ListHeader(Humanise(key), |v.items|));
      WithFont(Items(WithFont(p, Oblique), v.items), Regular)
    else
      Line(p, Margin, ScalarLine(Humanise(key), v.n))
  }

  function Sections(p: Pen, doc: Counts): Pen
    requires WellShaped(doc)
    decreases |doc|
  {
    if doc == [] then p
    else
      assert WellShaped(doc[1..]) by {
        forall i | 0 <= i < |doc[1..]| ensures doc[1..][i] == doc[i + 1] { }
      }
      Sections(Section(p, doc[0].0, doc[0].1), doc[1..])
  }

  /** The whole report, as generate_pdf writes it before saving. */
  function Report(doc: Counts, url: string): Pen
    requires WellShaped(doc)
  {
    Sections(Header(url), doc)
  }

  // ------------------------------------------------------------ reference

  /** The x of the first line drawn in the log, if it draws one. */
  function NextDrawX(log: seq<Event>): Option<int>
    decreases |log|
  {
    if log == [] then None
    else if log[0].DrawString? then Some(log[0].x)
    else NextDrawX(log[1..])
  }

  /** The lowest cursor position the next line of the log may start at: 50 for a chunk line, else 100. */
  function BreakFloor(rest: seq<Event>): int
  {
    if NextDrawX(rest) == Some(Margin + Indent) then LineFloor else SectionFloor
  }

  /**
   * The page discipline, replayed from cursor position y: a line may be drawn
   * only at the cursor, never above the top margin, a section or table header
   * (x = 40) never below 100 and a chunk line (x = 60) never below 50; each
   * line lowers the cursor by 16; a page is broken only when the cursor is
   * below the floor of the next line drawn (below 100 when no line follows),
   * and the next page starts at the top.  The result is the final cursor, or
   * None when the events break the discipline.
   */
  function Replay(y: int, log: seq<Event>): Option<int>
    decreases |log|
  {
    if log == [] then Some(y)
    else
      match log[0]
      case SetFont(_) => Replay(y, log[1..])
      case ShowPage => if y < BreakFloor(log[1..]) then Replay(TopY, log[1..]) else None
      case DrawString(x, at, _) =>
        if at == y && y <= TopY
           && ((x == Margin && y >= SectionFloor) || (x == Margin + Indent && y >= LineFloor))
        then Replay(y - LineHeight, log[1..])
        else None
  }

  /** The lowest a disciplined cursor goes: one line below the chunk floor. */
  const Bottom: int := LineFloor - LineHeight

  /** The texts of the lines the log draws, in order. */
  function DrawnTexts(log: seq<Event>): seq<string>
    decreases |log|
  {
    if log == [] then [] else (if log[0].DrawString? then [log[0].text] else []) + DrawnTexts(log[1..])
  }

  /** Every line the log draws starts at x. */
  predicate DrawnAt(log: seq<Event>, x: int)
  {
    forall i :: 0 <= i < |log| && log[i].DrawString? ==> log[i].x == x
  }

  /** Every page break of the log is followed, later in the same log, by a line. */
  predicate Settled(log: seq<Event>)
    decreases |log|
  {
    log == [] || ((log[0].ShowPage? ==> NextDrawX(log[1..]).Some?) && Settled(log[1..]))
  }

  function DrawCount(log: seq<Event>): nat
    decreases |log|
  {
    if log == [] then 0 else (if log[0].DrawString? then 1 else 0) + DrawCount(log[1..])
  }

  function PageBreaks(log: seq<Event>): nat
    decreases |log|
  {
    if log == [] then 0 else (if log[0].ShowPage? then 1 else 0) + PageBreaks(log[1..])
  }

  /** The number of lines an item list, a table's rows, the tables and a section need. */
  function ItemLines(items: seq<string>): nat
    decreases |items|
  {
    if items == [] then 0 else ChunkCount(|items[0]| + 2) + ItemLines(items[1..])
  }

  function RowLines(rows: Table): nat
    decreases |rows|
  {
    if rows == [] then 0 else ChunkCount(|Join(rows[0], RowSeparator)|) + RowLines(rows[1..])
  }

  function TableLines(tables: seq<Table>): nat
    decreases |tables|
  {
    if tables == [] then 0 else 1 + RowLines(tables[0]) + TableLines(tables[1..])
  }

  function SectionLines(key: string, v: Value): nat
  {
    if key == TablesDataKey && v.TableList? then TableLines(v.tables)
    else if v.StringList? then 1 + ItemLines(v.items)
    else 1
  }

  function DocLines(doc: Counts): nat
    decreases |doc|
  {
    if doc == [] then 0 else SectionLines(doc[0].0, doc[0].1) + DocLines(doc[1..])
  }

  /**
   * From p to q the renderer only appended events; those events keep the
   * page discipline from p's cursor to q's, draw `lines` lines, and account
   * for every page q is past p.
   */
  ghost predicate Extends(p: Pen, q: Pen, lines: nat)
  {
    && |p.log| <= |q.log| && q.log[..|p.log|] == p.log
    && Replay(p.y, q.log[|p.log|..]) == Some(q.y)
    && DrawCount(q.log[|p.log|..]) == lines
    && q.page == p.page + PageBreaks(q.log[|p.log|..])
    && q.y <= TopY
  }

  /** An extension each of whose page breaks is followed by a line it draws itself. */
  ghost predicate Advance(p: Pen, q: Pen, lines: nat)
  {
    Extends(p, q, lines) && Settled(q.log[|p.log|..])
  }

  /**
   * An extension that may end with a page break still waiting for its line,
   * and that does not open with a chunk line: after one such extension
   * another can follow, and the waiting break stays justified.
   */
  ghost predicate AdvanceOpen(p: Pen, q: Pen, lines: nat)
  {
    Extends(p, q, lines) && NextDrawX(q.log[|p.log|..]) != Some(Margin + Indent)
  }

  // ------------------------------------------------------------ lemmas

  lemma {:induction false} NextDrawXAppend(a: seq<Event>, b: seq<Event>)
    ensures NextDrawX(a + b) == if NextDrawX(a).Some? then NextDrawX(a) else NextDrawX(b)
    decreases |a|
  {
    if a != [] {
      assert (a + b)[0] == a[0] && (a + b)[1..] == a[1..] + b;
      NextDrawXAppend(a[1..], b);
    } else {
      assert a + b == b;
    }
  }

  lemma {:induction false} SettledAppend(a: seq<Event>, b: seq<Event>)
    requires Settled(a) && Settled(b)
    ensures Settled(a + b)
    decreases |a|
  {
    if a != [] {
      assert (a + b)[0] == a[0] && (a + b)[1..] == a[1..] + b;
      NextDrawXAppend(a[1..], b);
      SettledAppend(a[1..], b);
    } else {
      assert a + b == b;
    }
  }

  /**
   * Replaying a + b is replaying a, then b from where a left the cursor,
   * unless a break of a still waits for its line and b opens with a chunk line.
   */
  lemma {:induction false} ReplayAppend(y: int, a: seq<Event>, b: seq<Event>)
    requires Settled(a) || NextDrawX(b) != Some(Margin + Indent)
    ensures Replay(y, a + b) == match Replay(y, a) case None => None case Some(y') => Replay(y', b)
    decreases |a|
  {
    if a != [] {
      assert (a + b)[0] == a[0] && (a + b)[1..] == a[1..] + b;
      match a[0]
      case SetFont(_) => ReplayAppend(y, a[1..], b);
      case ShowPage =>
        NextDrawXAppend(a[1..], b);
        assert BreakFloor(a[1..] + b) == BreakFloor(a[1..]);
        ReplayAppend(TopY, a[1..], b);
      case DrawString(_, _, _) => ReplayAppend(y - LineHeight, a[1..], b);
    } else {
      assert a + b == b;
    }
  }

  lemma {:induction false} CountsAppend(a: seq<Event>, b: seq<Event>)
    ensures DrawCount(a + b) == DrawCount(a) + DrawCount(b)
    ensures PageBreaks(a + b) == PageBreaks(a) + PageBreaks(b)
    decreases |a|
  {
    if a != [] {
      assert (a + b)[0] == a[0] && (a + b)[1..] == a[1..] + b;
      CountsAppend(a[1..], b);
    } else {
      assert a + b == b;
    }
  }

  lemma {:induction false} DrawnTextsAppend(a: seq<Event>, b: seq<Event>)
    ensures DrawnTexts(a + b) == DrawnTexts(a) + DrawnTexts(b)
    decreases |a|
  {
    if a != [] {
      assert (a + b)[0] == a[0] && (a + b)[1..] == a[1..] + b;
      DrawnTextsAppend(a[1..], b);
    } else {
      assert a + b == b;
    }
  }

  lemma DrawnAtAppend(a: seq<Event>, b: seq<Event>, x: int)
    requires DrawnAt(a, x) && DrawnAt(b, x)
    ensures DrawnAt(a + b, x)
  {
    forall i | 0 <= i < |a + b| && (a + b)[i].DrawString? ensures (a + b)[i].x == x {
      if i >= |a| {
        assert (a + b)[i] == b[i - |a|];
      }
    }
  }

  /** A log of one line drawn at the cursor, above that line's floor. */
  lemma LoneLine(y: int, x: int, text: string)
    requires y <= TopY && ((x == Margin && y >= SectionFloor) || (x == Margin + Indent && y >= LineFloor))
    ensures var log := [DrawString(x, y, text)];
      && Replay(y, log) == Some(y - LineHeight) && NextDrawX(log) == Some(x) && Settled(log)
      && DrawCount(log) == 1 && PageBreaks(log) == 0 && DrawnTexts(log) == [text] && DrawnAt(log, x)
  {
    var log := [DrawString(x, y, text)];
    assert log[1..] == [];
  }

  lemma AdvanceSame(p: Pen)
    requires p.y <= TopY
    ensures Advance(p, p, 0) && AdvanceOpen(p, p, 0)
  {
    assert p.log[|p.log|..] == [];
  }

  /** Two extensions in a row, where no waiting break of the first meets a chunk line of the second. */
  lemma ExtendsTrans(p: Pen, q: Pen, r: Pen, m: nat, n: nat)
    requires Extends(p, q, m) && Extends(q, r, n)
    requires Settled(q.log[|p.log|..]) || NextDrawX(r.log[|q.log|..]) != Some(Margin + Indent)
    ensures Extends(p, r, m + n)
    ensures r.log[|p.log|..] == q.log[|p.log|..] + r.log[|q.log|..]
    ensures NextDrawX(r.log[|p.log|..])
      == if NextDrawX(q.log[|p.log|..]).Some? then NextDrawX(q.log[|p.log|..]) else NextDrawX(r.log[|q.log|..])
  {
    var a, b := q.log[|p.log|..], r.log[|q.log|..];
    assert r.log[..|p.log|] == q.log[..|p.log|];
    assert r.log[|p.log|..] == a + b;
    ReplayAppend(p.y, a, b);
    CountsAppend(a, b);
    NextDrawXAppend(a, b);
  }

  lemma AdvanceTrans(p: Pen, q: Pen, r: Pen, m: nat, n: nat)
    requires Advance(p, q, m) && Advance(q, r, n)
    ensures Advance(p, r, m + n)
    ensures r.log[|p.log|..] == q.log[|p.log|..] + r.log[|q.log|..]
    ensures NextDrawX(q.log[|p.log|..]).Some? ==> NextDrawX(r.log[|p.log|..]) == NextDrawX(q.log[|p.log|..])
  {
    ExtendsTrans(p, q, r, m, n);
    SettledAppend(q.log[|p.log|..], r.log[|q.log|..]);
  }

  lemma OpenTrans(p: Pen, q: Pen, r: Pen, m: nat, n: nat)
    requires AdvanceOpen(p, q, m) && AdvanceOpen(q, r, n)
    ensures AdvanceOpen(p, r, m + n)
  {
    ExtendsTrans(p, q, r, m, n);
  }

  /** The appended events of a pen that only appended `added`. */
  lemma Appended(p: Pen, q: Pen, added: seq<Event>)
    requires q.log == p.log + added
    ensures |p.log| <= |q.log| && q.log[..|p.log|] == p.log && q.log[|p.log|..] == added
  {
  }

  lemma FontAdvance(p: Pen, f: Font)
    requires p.y <= TopY
    ensures Advance(p, WithFont(p, f), 0)
  {
    Appended(p, WithFont(p, f), [SetFont(f)]);
  }

  /**
   * The check alone: the cursor ends at or above the floor, a page break
   * leaves Helvetica 10 selected, and the break, if taken, waits for a line.
   */
  lemma RoomAdvance(p: Pen, floor: int)
    requires p.y <= TopY && floor <= SectionFloor
    ensures AdvanceOpen(p, Room(p, floor), 0)
    ensures Room(p, floor).y >= floor
    ensures p.y < floor ==> Room(p, floor).font == Regular
    ensures p.font == Regular ==> Room(p, floor).font == Regular
  {
    if p.y < floor {
      var added := [ShowPage, SetFont(Regular)];
      Appended(p, NewPage(p), added);
      assert added[1..] == [SetFont(Regular)] && added[1..][1..] == [];
      assert NextDrawX(added[1..]) == None && NextDrawX(added) == None;
      assert Replay(TopY, added[1..]) == Some(TopY);
      assert Replay(p.y, added) == Some(TopY);
      assert DrawCount(added[1..]) == 0 && PageBreaks(added[1..]) == 0;
    } else {
      AdvanceSame(p);
    }
  }

  /**
   * The check against the floor a line needs (100 for a header at x = 40, 50
   * for a chunk line at x = 60), then the line: the break, if taken, is
   * justified by that line.
   */
  lemma RoomLineAdvance(p: Pen, x: int, text: string)
    requires p.y <= TopY && (x == Margin || x == Margin + Indent)
    ensures var q := Line(Room(p, if x == Margin then SectionFloor else LineFloor), x, text);
      && Advance(p, q, 1)
      && NextDrawX(q.log[|p.log|..]) == Some(x)
      && DrawnTexts(q.log[|p.log|..]) == [text] && DrawnAt(q.log[|p.log|..], x)
      && (p.font == Regular ==> q.font == Regular)
  {
    var floor := if x == Margin then SectionFloor else LineFloor;
    var q := Line(Room(p, floor), x, text);
    if p.y < floor {
      var line := [DrawString(x, TopY, text)];
      var rest := [SetFont(Regular)] + line;
      var added := [ShowPage] + rest;
      Appended(p, q, added);
      LoneLine(TopY, x, text);
      assert rest[0] == SetFont(Regular) && rest[1..] == line && added[0] == ShowPage && added[1..] == rest;
      assert NextDrawX(rest) == Some(x) && Replay(TopY, rest) == Some(TopY - LineHeight);
      assert Settled(rest) && DrawCount(rest) == 1 && PageBreaks(rest) == 0 && DrawnTexts(rest) == [text];
      DrawnAtAppend([ShowPage, SetFont(Regular)], line, x);
      assert [ShowPage, SetFont(Regular)] + line == added;
    } else {
      Appended(p, q, [DrawString(x, p.y, text)]);
      LoneLine(p.y, x, text);
    }
  }

  /**
   * One line per chunk: the lines drawn carry the chunks in order, all at
   * x = 60, and Helvetica 10 stays selected when it was.
   */
  lemma {:induction false} ChunksAdvance(p: Pen, chunks: seq<string>)
    requires p.y <= TopY
    ensures Advance(p, Chunks(p, chunks), |chunks|)
    ensures DrawnTexts(Chunks(p, chunks).log[|p.log|..]) == chunks
    ensures DrawnAt(Chunks(p, chunks).log[|p.log|..], Margin + Indent)
    ensures p.font == Regular ==> Chunks(p, chunks).font == Regular
    decreases |chunks|
  {
    if chunks == [] {
      AdvanceSame(p);
      assert p.log[|p.log|..] == [];
    } else {
      var r := Line(Room(p, LineFloor), Margin + Indent, chunks[0]);
      RoomLineAdvance(p, Margin + Indent, chunks[0]);
      ChunksAdvance(r, chunks[1..]);
      AdvanceTrans(p, r, Chunks(r, chunks[1..]), 1, |chunks| - 1);
      DrawnTextsAppend(r.log[|p.log|..], Chunks(r, chunks[1..]).log[|r.log|..]);
      DrawnAtAppend(r.log[|p.log|..], Chunks(r, chunks[1..]).log[|r.log|..], Margin + Indent);
      assert [chunks[0]] + chunks[1..] == chunks;
    }
  }

  lemma {:induction false} ItemsAdvance(p: Pen, items: seq<string>)
    requires p.y <= TopY
    ensures Advance(p, Items(p, items), ItemLines(items))
    decreases |items|
  {
    if items == [] {
      AdvanceSame(p);
    } else {
      var q := Chunks(p, ItemChunks(items[0]));
      ChunksAdvance(p, ItemChunks(items[0]));
      ItemChunksSpec(items[0]);
      ItemsAdvance(q, items[1..]);
      AdvanceTrans(p, q, Items(q, items[1..]), |ItemChunks(items[0])|, ItemLines(items[1..]));
    }
  }

  lemma {:induction false} RowsAdvance(p: Pen, rows: Table)
    requires p.y <= TopY
    ensures Advance(p, Rows(p, rows), RowLines(rows))
    decreases |rows|
  {
    if rows == [] {
      AdvanceSame(p);
    } else {
      var q := Chunks(p, RowChunks(rows[0]));
      ChunksAdvance(p, RowChunks(rows[0]));
      SlicesCount(Join(rows[0], RowSeparator), RowWidth);
      RowsAdvance(q, rows[1..]);
      AdvanceTrans(p, q, Rows(q, rows[1..]), |RowChunks(rows[0])|, RowLines(rows[1..]));
    }
  }

  /** One table opens with its header line and leaves Helvetica 10 selected. */
  lemma TableAdvance(p: Pen, index: nat, table: Table)
    requires p.y <= TopY
    ensures Advance(p, TableBlock(p, index, table), 1 + RowLines(table))
    ensures NextDrawX(TableBlock(p, index, table).log[|p.log|..]) == Some(Margin)
    ensures TableBlock(p, index, table).font == Regular
  {
    var h := Line(Room(p, SectionFloor), Margin, TableHeader(index, table));
    RoomLineAdvance(p, Margin, TableHeader(index, table));
    var o := WithFont(h, Oblique);
    FontAdvance(h, Oblique);
    AdvanceTrans(p, h, o, 1, 0);
    var r := Rows(o, table);
    RowsAdvance(o, table);
    AdvanceTrans(p, o, r, 1, RowLines(table));
    FontAdvance(r, Regular);
    AdvanceTrans(p, r, WithFont(r, Regular), 1 + RowLines(table), 0);
  }

  lemma {:induction false} TablesAdvance(p: Pen, index: nat, tables: seq<Table>)
    requires p.y <= TopY
    ensures Advance(p, Tables(p, index, tables), TableLines(tables))
    ensures tables != [] ==> NextDrawX(Tables(p, index, tables).log[|p.log|..]) == Some(Margin)
    ensures p.font == Regular ==> Tables(p, index, tables).font == Regular
    decreases |tables|
  {
    if tables == [] {
      AdvanceSame(p);
    } else {
      var q := TableBlock(p, index, tables[0]);
      TableAdvance(p, index, tables[0]);
      TablesAdvance(q, index + 1, tables[1..]);
      AdvanceTrans(p, q, Tables(q, index + 1, tables[1..]), 1 + RowLines(tables[0]), TableLines(tables[1..]));
    }
  }

  /** A list section: the checked header line, then the items in the oblique font. */
  lemma ListAdvance(p: Pen, header: string, items: seq<string>)
    requires p.y <= TopY
    ensures var s := WithFont(Items(WithFont(Line(Room(p, SectionFloor), Margin, header), Oblique), items), Regular);
      Advance(p, s, 1 + ItemLines(items)) && NextDrawX(s.log[|p.log|..]) == Some(Margin)
  {
    var h := Line(Room(p, SectionFloor), Margin, header);
    RoomLineAdvance(p, Margin, header);
    var o := WithFont(h, Oblique);
    FontAdvance(h, Oblique);
    AdvanceTrans(p, h, o, 1, 0);
    var r := Items(o, items);
    ItemsAdvance(o, items);
    AdvanceTrans(p, o, r, 1, ItemLines(items));
    FontAdvance(r, Regular);
    AdvanceTrans(p, r, WithFont(r, Regular), 1 + ItemLines(items), 0);
  }

  /**
   * A section keeps the page discipline, draws SectionLines lines and leaves
   * Helvetica 10 selected; only an empty tables_data can end on a break, and
   * the next thing drawn after it is a header.
   */
  lemma SectionAdvance(p: Pen, key: string, v: Value)
    requires v.TableList? <==> key == TablesDataKey
    requires p.y <= TopY && p.font == Regular
    ensures AdvanceOpen(p, Section(p, key, v), SectionLines(key, v))
    ensures !(key == TablesDataKey && v.tables == []) ==> Settled(Section(p, key, v).log[|p.log|..])
    ensures Section(p, key, v).font == Regular
  {
    RoomAdvance(p, SectionFloor);
    if key == TablesDataKey {
      if v.tables != [] {
        var q := Room(p, SectionFloor);
        assert Room(q, SectionFloor) == q;
        assert TableBlock(q, 1, v.tables[0]) == TableBlock(p, 1, v.tables[0]);
        assert Section(p, key, v) == Tables(p, 1, v.tables);
        TablesAdvance(p, 1, v.tables);
      }
    } else if v.StringList? {
      ListAdvance(p, ListHeader(Humanise(key), |v.items|), v.items);
    } else {
      RoomLineAdvance(p, Margin, ScalarLine(Humanise(key), v.n));
    }
  }

  lemma {:induction false} SectionsAdvance(p: Pen, doc: Counts)
    requires WellShaped(doc)
    requires p.y <= TopY && p.font == Regular
    ensures AdvanceOpen(p, Sections(p, doc), DocLines(doc))
    ensures Sections(p, doc).font == Regular
    decreases |doc|
  {
    if doc == [] {
      AdvanceSame(p);
    } else {
      assert WellShaped(doc[1..]) by {
        forall i | 0 <= i < |doc[1..]| ensures doc[1..][i] == doc[i + 1] { }
      }
      var q := Section(p, doc[0].0, doc[0].1);
      SectionAdvance(p, doc[0].0, doc[0].1);
      SectionsAdvance(q, doc[1..]);
      OpenTrans(p, q, Sections(q, doc[1..]), SectionLines(doc[0].0, doc[0].1), DocLines(doc[1..]));
    }
  }

  /** Where a pen extends another, every event of the shorter log stays where it was. */
  lemma ExtendsAt(p: Pen, q: Pen, lines: nat, i: nat)
    requires Extends(p, q, lines) && i < |p.log|
    ensures i < |q.log| && q.log[i] == p.log[i]
  {
    assert q.log[..|p.log|][i] == q.log[i];
  }

  /**
   * Dispatch on key and value: after the page-break check a scalar entry
   * draws exactly one line, "• Title: n"; a list entry draws "• Title (n
   * items):", switches to the oblique font and ends by restoring Helvetica
   * 10; tables_data draws the header of its first table, numbered 1, and
   * nothing at all when there is no table.
   */
  lemma SectionOpening(p: Pen, key: string, v: Value)
    requires v.TableList? <==> key == TablesDataKey
    requires p.y <= TopY
    ensures var q := Room(p, SectionFloor);
      var s := Section(p, key, v);
      && |q.log| <= |s.log| && s.log[..|q.log|] == q.log
      && (v.Scalar? ==> s.log[|q.log|..] == [DrawString(Margin, q.y, ScalarLine(Humanise(key), v.n))])
      && (v.StringList? ==>
            && |s.log| >= |q.log| + 3
            && s.log[|q.log|] == DrawString(Margin, q.y, ListHeader(Humanise(key), |v.items|))
            && s.log[|q.log| + 1] == SetFont(Oblique)
            && s.log[|s.log| - 1] == SetFont(Regular))
      && (v.TableList? && v.tables == [] ==> s == q)
      && (v.TableList? && v.tables != [] ==>
            && |s.log| > |q.log|
            && s.log[|q.log|] == DrawString(Margin, q.y, TableHeader(1, v.tables[0])))
  {
    var q := Room(p, SectionFloor);
    RoomAdvance(p, SectionFloor);
    if v.Scalar? {
      Appended(q, Section(p, key, v), [DrawString(Margin, q.y, ScalarLine(Humanise(key), v.n))]);
    } else if v.StringList? {
      ListOpening(q, ListHeader(Humanise(key), |v.items|), v.items);
    } else if v.tables != [] {
      TablesOpening(q, v.tables);
    }
  }

  /** A list section after its check: the header, the switch to the oblique font, and Helvetica 10 last. */
  lemma ListOpening(q: Pen, header: string, items: seq<string>)
    requires SectionFloor <= q.y <= TopY
    ensures var s := WithFont(Items(WithFont(Line(q, Margin, header), Oblique), items), Regular);
      && |s.log| >= |q.log| + 3 && s.log[..|q.log|] == q.log
      && s.log[|q.log|] == DrawString(Margin, q.y, header)
      && s.log[|q.log| + 1] == SetFont(Oblique)
      && s.log[|s.log| - 1] == SetFont(Regular)
  {
    var o := WithFont(Line(q, Margin, header), Oblique);
    ItemsAdvance(o, items);
    var r := Items(o, items);
    ExtendsAt(o, r, ItemLines(items), |q.log|);
    ExtendsAt(o, r, ItemLines(items), |q.log| + 1);
    assert r.log[..|q.log|] == o.log[..|q.log|];
  }

  /** The tables after the check: the header of table 1 comes first. */
  lemma TablesOpening(q: Pen, tables: seq<Table>)
    requires SectionFloor <= q.y <= TopY && tables != []
    ensures var s := Tables(q, 1, tables);
      && |q.log| < |s.log| && s.log[..|q.log|] == q.log
      && s.log[|q.log|] == DrawString(Margin, q.y, TableHeader(1, tables[0]))
  {
    TablesAdvance(q, 1, tables);
    var t := tables[0];
    assert Room(q, SectionFloor) == q;
    var o := WithFont(Line(q, Margin, TableHeader(1, t)), Oblique);
    RowsAdvance(o, t);
    var b := WithFont(Rows(o, t), Regular);
    ExtendsAt(o, Rows(o, t), RowLines(t), |q.log|);
    assert TableBlock(q, 1, t) == b;
    TablesAdvance(b, 2, tables[1..]);
    ExtendsAt(b, Tables(b, 2, tables[1..]), TableLines(tables[1..]), |q.log|);
  }

  /** Every line a disciplined replay draws lies between the floors and the top margin. */
  lemma {:induction false} ReplayBounds(y: int, log: seq<Event>)
    requires Replay(y, log).Some?
    ensures forall i :: 0 <= i < |log| && log[i].DrawString? ==>
      && log[i].y <= TopY
      && ((log[i].x == Margin && log[i].y >= SectionFloor) || (log[i].x == Margin + Indent && log[i].y >= LineFloor))
    decreases |log|
  {
    if log != [] {
      match log[0]
      case SetFont(_) => ReplayBounds(y, log[1..]);
      case ShowPage => ReplayBounds(TopY, log[1..]);
      case DrawString(_, _, _) => ReplayBounds(y - LineHeight, log[1..]);
      assert forall i :: 1 <= i < |log| ==> log[i] == log[1..][i - 1];
    }
  }

  /**
   * A page break followed by a line is allowed exactly when the cursor was
   * below that line's floor (100 for a header at x = 40, 50 for a chunk line
   * at x = 60), and the line without a break exactly when the cursor is at
   * or above it.
   */
  lemma BreakRule(y: int, x: int, text: string)
    requires y <= TopY && (x == Margin || x == Margin + Indent)
    ensures var floor := if x == Margin then SectionFloor else LineFloor;
      && (Replay(y, [ShowPage, SetFont(Regular), DrawString(x, TopY, text)]).Some? <==> y < floor)
      && (Replay(y, [DrawString(x, y, text)]).Some? <==> floor <= y)
  {
    var added := [ShowPage, SetFont(Regular), DrawString(x, TopY, text)];
    assert added[1..][1..] == [DrawString(x, TopY, text)] && added[1..][1..][1..] == [];
    assert NextDrawX(added[1..]) == Some(x);
    assert Replay(TopY, added[1..][1..]) == Some(TopY - LineHeight);
    assert Replay(TopY, added[1..]) == Some(TopY - LineHeight);
  }

  /**
   * Each line lowers the cursor by 16 and each break lifts it from below 100,
   * and from no lower than Bottom, back to the top: a replay's page breaks
   * are bounded above and below by the lines it draws.
   */
  lemma {:induction false} ReplayBudget(y: int, log: seq<Event>)
    requires Bottom <= y <= TopY && Replay(y, log).Some?
    ensures var y' := Replay(y, log).value;
      && Bottom <= y' <= TopY
      && y + (TopY - SectionFloor + 1) * PageBreaks(log) <= y' + LineHeight * DrawCount(log)
      && y' + LineHeight * DrawCount(log) <= y + (TopY - Bottom) * PageBreaks(log)
    decreases |log|
  {
    if log != [] {
      match log[0]
      case SetFont(_) => ReplayBudget(y, log[1..]);
      case ShowPage => ReplayBudget(TopY, log[1..]);
      case DrawString(_, _, _) => ReplayBudget(y - LineHeight, log[1..]);
    }
  }

  /**
   * The report opens with the title in Helvetica-Bold 16 at the top of page 1
   * and the URL line 30 points below it; every later line lies between the
   * floors and the top margin; one line is drawn per scalar, one per list or
   * table header and one per chunk; the page count is one plus the page
   * breaks, and the breaks are bounded both ways by the lines drawn: a page
   * holds at least 633 / 16 lines before it is broken and at most 698 / 16;
   * and Helvetica 10 is selected at the end.
   */
  lemma ReportLayout(doc: Counts, url: string)
    requires WellShaped(doc)
    ensures var r := Report(doc, url);
      && |r.log| >= 5
      && r.log[..5] == [SetFont(Regular), SetFont(Bold), DrawString(Margin, TopY, ReportTitle),
                        SetFont(Regular), DrawString(Margin, TopY - TitleGap, "URL: " + url)]
      && Replay(TopY - TitleGap - UrlGap, r.log[5..]) == Some(r.y)
      && (forall i :: 5 <= i < |r.log| && r.log[i].DrawString? ==>
            && r.log[i].y <= TopY
            && ((r.log[i].x == Margin && r.log[i].y >= SectionFloor)
                || (r.log[i].x == Margin + Indent && r.log[i].y >= LineFloor)))
      && DrawCount(r.log) == 2 + DocLines(doc)
      && r.page == 1 + PageBreaks(r.log)
      && 633 * PageBreaks(r.log) <= 50 + 16 * DocLines(doc)
      && 16 * DocLines(doc) <= 648 + 698 * PageBreaks(r.log)
      && r.font == Regular
  {
    var h := Header(url);
    var r := Report(doc, url);
    assert h.log == [SetFont(Regular), SetFont(Bold), DrawString(Margin, TopY, ReportTitle),
                     SetFont(Regular), DrawString(Margin, TopY - TitleGap, "URL: " + url)];
    assert h.y == TopY - TitleGap - UrlGap && h.page == 1 && h.font == Regular;
    SectionsAdvance(h, doc);
    var rest := r.log[5..];
    ReplayBounds(h.y, rest);
    ReplayBudget(h.y, rest);
    assert forall i :: 5 <= i < |r.log| ==> r.log[i] == rest[i - 5];
    assert r.log == h.log + rest;
    CountsAppend(h.log, rest);
    assert DrawCount(h.log[4..]) == 1 && PageBreaks(h.log[4..]) == 0;
    assert DrawCount(h.log[2..]) == 2 && PageBreaks(h.log[2..]) == 0 by {
      assert h.log[2..][1..] == h.log[3..] && h.log[3..][1..] == h.log[4..];
    }
    assert h.log[..][1..] == h.log[1..] && h.log[1..][1..] == h.log[2..];
  }

  // ------------------------------------------------------------ implementation

  /** A reportlab canvas, seen through the calls generate_pdf makes on it. */
  class Canvas {
    var font: Font
    var page: nat
    var log: seq<Event>

    /** `pdf_canvas.Canvas(save_path, pagesize=letter)`. */
    constructor ()
      ensures font == PageDefault && page == 1 && log == []
    {
      font := PageDefault;
      page := 1;
      log := [];
    }

    method SetFont(f: Font)
      modifies this
      ensures font == f && page == old(page) && log == old(log) + [Event.SetFont(f)]
    {
      font := f;
      log := log + [Event.SetFont(f)];
    }

    method DrawString(x: int, y: int, text: string)
      modifies this
      ensures font == old(font) && page == old(page) && log == old(log) + [Event.DrawString(x, y, text)]
    {
      log := log + [Event.DrawString(x, y, text)];
    }

    method ShowPage()
      modifies this
      ensures font == PageDefault && page == old(page) + 1 && log == old(log) + [Event.ShowPage]
    {
      font := PageDefault;
      page := page + 1;
      log := log + [Event.ShowPage];
    }

    /** The canvas together with the cursor the renderer keeps beside it. */
    ghost function At(y: int): Pen
      reads this
    {
      Pen(y, page, font, log)
    }
  }

  /** `start_page(c)`. */
  method StartPageOn(c: Canvas) returns (y: int)
    modifies c
    ensures c.At(y) == StartPage(old(c.At(y)))
  {
    c.SetFont(Regular);
    y := TopY;
  }

  /** The page-break check generate_pdf repeats before sections, tables and chunk lines. */
  method BreakBelow(c: Canvas, y: int, floor: int) returns (y': int)
    modifies c
    ensures c.At(y') == Room(old(c.At(y)), floor)
  {
    y' := y;
    if y < floor {
      c.ShowPage();
      y' := StartPageOn(c);
    }
  }

  /** `for chunk in chunks: ...; c.drawString(40 + indent, y, chunk); y -= line_height`. */
  method DrawChunks(c: Canvas, y: int, chunks: seq<string>) returns (y': int)
    modifies c
    ensures c.At(y') == Chunks(old(c.At(y)), chunks)
  {
    y' := y;
    var i := 0;
    while i < |chunks|
      invariant 0 <= i <= |chunks|
      invariant Chunks(c.At(y'), chunks[i..]) == Chunks(old(c.At(y)), chunks)
    {
      y' := BreakBelow(c, y', LineFloor);
      c.DrawString(Margin + Indent, y', chunks[i]);
      y' := y' - LineHeight;
      assert chunks[i..][1..] == chunks[i + 1..];
      i := i + 1;
    }
  }

  /** The rows of one table (lines 57-66): each row's chunks in turn. */
  method DrawRows(c: Canvas, y: int, rows: Table) returns (y': int)
    modifies c
    ensures c.At(y') == Rows(old(c.At(y)), rows)
  {
    y' := y;
    var r := 0;
    while r < |rows|
      invariant 0 <= r <= |rows|
      invariant Rows(c.At(y'), rows[r..]) == Rows(old(c.At(y)), rows)
    {
      y' := DrawChunks(c, y', RowChunks(rows[r]));
      assert rows[r..][1..] == rows[r + 1..];
      r := r + 1;
    }
  }

  /** One table (lines 43-67): the page-break check, its header, its rows in the oblique font. */
  method DrawTable(c: Canvas, y: int, index: nat, table: Table) returns (y': int)
    modifies c
    ensures c.At(y') == TableBlock(old(c.At(y)), index, table)
  {
    y' := BreakBelow(c, y, SectionFloor);
    c.DrawString(Margin, y', TableHeader(index, table));
    y' := y' - LineHeight;
    c.SetFont(Oblique);
    y' := DrawRows(c, y', table);
    c.SetFont(Regular);
  }

  /** The `tables_data` section: every table with its header, numbered from 1. */
  method DrawTables(c: Canvas, y: int, tables: seq<Table>) returns (y': int)
    modifies c
    ensures c.At(y') == Tables(old(c.At(y)), 1, tables)
  {
    y' := y;
    var t := 0;
    while t < |tables|
      invariant 0 <= t <= |tables|
      invariant Tables(c.At(y'), t + 1, tables[t..]) == Tables(old(c.At(y)), 1, tables)
    {
      ghost var before := c.At(y');
      y' := DrawTable(c, y', t + 1, tables[t]);
      assert tables[t..][0] == tables[t] && tables[t..][1..] == tables[t + 1..];
      assert Tables(before, t + 1, tables[t..]) == Tables(c.At(y'), t + 2, tables[t + 1..]);
      t := t + 1;
    }
  }

  /** The items of a list section, each as "- " + item in 80-character chunks. */
  method DrawItems(c: Canvas, y: int, items: seq<string>) returns (y': int)
    modifies c
    ensures c.At(y') == Items(old(c.At(y)), items)
  {
    y' := y;
    var k := 0;
    while k < |items|
      invariant 0 <= k <= |items|
      invariant Items(c.At(y'), items[k..]) == Items(old(c.At(y)), items)
    {
      y' := DrawChunks(c, y', ItemChunks(items[k]));
      assert items[k..][1..] == items[k + 1..];
      k := k + 1;
    }
  }

  /** One pass of the `for element, val in counts.items()` loop: the page-break check, then the entry's lines. */
  method DrawSection(c: Canvas, y: int, key: string, val: Value) returns (y': int)
    requires val.TableList? <==> key == TablesDataKey
    modifies c
    ensures c.At(y') == Section(old(c.At(y)), key, val)
  {
    var title := Humanise(key);
    y' := BreakBelow(c, y, SectionFloor);
    if key == TablesDataKey {
      y' := DrawTables(c, y', val.tables);
    } else if val.StringList? {
      c.DrawString(Margin, y', ListHeader(title, |val.items|));
      y' := y' - LineHeight;
      c.SetFont(Oblique);
      y' := DrawItems(c, y', val.items);
      c.SetFont(Regular);
    } else {
      c.DrawString(Margin, y', ScalarLine(title, val.n));
      y' := y' - LineHeight;
    }
  }

  /** `generate_pdf(counts, url, save_path)` up to `c.save()`. */
  method GeneratePdf(counts: Counts, url: string) returns (c: Canvas)
    requires WellShaped(counts)
    ensures c.log == Report(counts, url).log
    ensures c.page == Report(counts, url).page
    ensures c.font == Report(counts, url).font
  {
    c := new Canvas();
    var y := StartPageOn(c);
    c.SetFont(Bold);
    c.DrawString(Margin, y, ReportTitle);
    y := y - TitleGap;
    c.SetFont(Regular);
    c.DrawString(Margin, y, "URL: " + url);
    y := y - UrlGap;
    assert c.At(y) == Header(url);

    var i := 0;
    while i < |counts|
      invariant 0 <= i <= |counts|
      invariant WellShaped(counts[i..])
      invariant Sections(c.At(y), counts[i..]) == Report(counts, url)
    {
      y := DrawSection(c, y, counts[i].0, counts[i].1);
      assert counts[i..][1..] == counts[i + 1..];
      i := i + 1;
    }
  }

  /**
   * `run_check`: the aggregator's document is always one generate_pdf
   * accepts, and the canvas ends with the title, the URL and one line per
   * scalar, header and chunk, on one page plus one per page break.
   */
  method RunCheck(q: QueryResults, url: string) returns (counts: Counts, c: Canvas)
    requires |q.chartSvgs| == |SvgSelectors|
    ensures Dict.Keys(counts) == CountKeys && WellShaped(counts)
    ensures c.log == Report(counts, url).log && c.page == Report(counts, url).page
    ensures DrawCount(c.log) == 2 + DocLines(counts)
    ensures c.page == 1 + PageBreaks(c.log)
  {
    counts := CountMediaElements(q);
    c := GeneratePdf(counts, url);
    ReportLayout(counts, url);
  }
}
