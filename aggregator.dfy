/**
 * The element aggregator of count_elements.py: from the results of the
 * browser queries it builds the Counts Document, an insertion-ordered
 * mapping from a fixed vocabulary of category names to a count, a list of
 * captured strings, or the extracted tables. The browser session and the CSS
 * selector semantics are outside the model: each query result is an input.
 */
module Aggregator {
  import opened Wrappers
  import opened Text
  import Dict

  /** The per-session identity token of a DOM node (Selenium's element id). */
  type ElementId = nat

  /**
   * A DOM element as far as the aggregator reads it: its identity, its href
   * attribute (None when absent), its visible text, its outerHTML markup and,
   * for a table, the visible text of each th/td cell of each of its tr rows.
   */
  datatype Element = Element(id: ElementId, href: Option<string>, text: string, outerHtml: string, rows: seq<seq<string>>)

  type Row = seq<string>
  type Table = seq<Row>

  /** A value of the Counts Document. */
  datatype Value = Scalar(n: nat) | StringList(items: seq<string>) | TableList(tables: seq<Table>)

  type Counts = seq<(string, Value)>

  /** The five chart selectors whose matches are merged into svg_charts, in search order. */
  const SvgSelectors: seq<string> := [
    "div.highcharts-container svg",
    "div.c3-chart svg",
    "div.ct-chart svg",
    "div.plotly-graph-div svg",
    "div[id*='chart'] svg"
  ]

  /**
   * What each find_elements call of the aggregator returned, in DOM order.
   * The page is queried twice for `table`: `tableTags` feeds the count and
   * `tableElems` the extraction.
   */
  datatype QueryResults = QueryResults(
    altImgs: seq<Element>,           // img[alt='image']
    mermaid: seq<Element>,           // section[data-type='mermaid']
    geojson: seq<Element>,           // section[data-type='geojson']
    topojson: seq<Element>,          // section[data-type='topojson']
    chartSvgs: seq<seq<Element>>,    // one result per entry of SvgSelectors
    imgTags: seq<Element>,           // tag img
    mapTags: seq<Element>,           // tag map
    iframeMaps: seq<Element>,        // iframe[src*='maps.google'], iframe[src*='openstreetmap']
    tableTags: seq<Element>,         // tag table, counted
    videos: seq<Element>,            // tag video
    canvases: seq<Element>,          // tag canvas
    svgRects: seq<Element>,          // svg rect
    svgCircles: seq<Element>,        // svg circle
    links: seq<Element>,             // tag a
    buttons: seq<Element>,           // tag button
    onclicks: seq<Element>,          // [onclick]
    tableElems: seq<Element>         // tag table, extracted
  )

  const TablesDataKey: string := "tables_data"

  /** The category names of the Counts Document, in insertion order. */
  const CountKeys: seq<string> := [
    "alt_image_count", "total_img_tags", "geojson_map_sections", "topojson_map_sections",
    "html_image_maps", "iframe_embedded_maps", "tables", "videos", "svg_charts",
    "canvas_charts", "mermaid_charts", "svg_rects", "svg_circles",
    "link_count", "button_count", "onclick_count", "link_hrefs", "button_labels", "onclick_tags",
    TablesDataKey
  ]

  /** The shape the renderer relies on: tables_data holds the tables, and no other category does. */
  predicate WellShaped(doc: Counts) {
    forall i :: 0 <= i < |doc| ==> (doc[i].1.TableList? <==> doc[i].0 == TablesDataKey)
  }

  // ------------------------------------------------------------ chart graphics

  /** The per-selector results one after the other. */
  function Flatten(results: seq<seq<Element>>): seq<Element>
  {
    if results == [] then [] else Flatten(results[..|results| - 1]) + results[|results| - 1]
  }

  function SumLengths(results: seq<seq<Element>>): nat
  {
    if results == [] then 0 else |results[0]| + SumLengths(results[1..])
  }

  /** Flattening keeps every element and adds none: its length is the sum of the result lengths. */
  lemma {:induction false} FlattenSpec(results: seq<seq<Element>>)
    ensures |Flatten(results)| == SumLengths(results)
    ensures forall e :: e in Flatten(results) <==> exists r :: r in results && e in r
  {
    if results != [] {
      var n := |results| - 1;
      FlattenSpec(results[..n]);
      assert results == results[..n] + [results[n]];
      SumLengthsSnoc(results[..n], results[n]);
    }
  }

  lemma {:induction false} SumLengthsSnoc(results: seq<seq<Element>>, last: seq<Element>)
    ensures SumLengths(results + [last]) == SumLengths(results) + |last|
  {
    if results != [] {
      assert (results + [last])[1..] == results[1..] + [last];
      SumLengthsSnoc(results[1..], last);
    }
  }

  /** `for sel in svg_selectors: chart_svgs.extend(driver.find_elements(...))`. */
  method GatherChartSvgs(results: seq<seq<Element>>) returns (chartSvgs: seq<Element>)
    ensures chartSvgs == Flatten(results)
  {
    chartSvgs := [];
    var i := 0;
    while i < |results|
      invariant 0 <= i <= |results|
      invariant chartSvgs == Flatten(results[..i])
    {
      assert results[..i + 1][..i] == results[..i];
      chartSvgs := chartSvgs + results[i];
      i := i + 1;
    }
    assert results[..i] == results;
  }

  function Ids(els: seq<Element>): (ids: seq<ElementId>)
    ensures |ids| == |els|
    ensures forall i :: 0 <= i < |els| ==> ids[i] == els[i].id
  {
    seq(|els|, i requires 0 <= i < |els| => els[i].id)
  }

  function IdPairs(els: seq<Element>): (ps: seq<(ElementId, Element)>)
    ensures Dict.Keys(ps) == Ids(els)
  {
    seq(|els|, i requires 0 <= i < |els| => (els[i].id, els[i]))
  }

  /** `list({svg.id: svg for svg in chart_svgs}.values())`. */
  function DedupById(els: seq<Element>): seq<Element>
  {
    Dict.Values(Dict.FromPairs(IdPairs(els)))
  }

  /** The last pair stored under id k holds an element whose id is k. */
  lemma {:induction false} LastValueId(els: seq<Element>, k: ElementId)
    ensures Dict.LastValue(IdPairs(els), k).Some? ==> Dict.LastValue(IdPairs(els), k).value.id == k
  {
    if els != [] {
      var n := |els| - 1;
      assert IdPairs(els)[..n] == IdPairs(els[..n]);
      LastValueId(els[..n], k);
    }
  }

  /**
   * The deduplicated charts: ids pairwise distinct, exactly the ids of the
   * input, in order of first occurrence, each element being the last one
   * seen with its id; no more elements than the input, and as many exactly
   * when no id repeats.
   */
  lemma DedupByIdSpec(els: seq<Element>)
    ensures Ids(DedupById(els)) == Dict.Firsts(Ids(els))
    ensures Dict.Distinct(Ids(DedupById(els)))
    ensures forall x :: x in Ids(DedupById(els)) <==> x in Ids(els)
    ensures forall i, j :: 0 <= i < j < |DedupById(els)| ==>
              Dict.IndexOf(Ids(els), DedupById(els)[i].id) < Dict.IndexOf(Ids(els), DedupById(els)[j].id)
    ensures forall i :: 0 <= i < |DedupById(els)| ==>
              Dict.LastValue(IdPairs(els), DedupById(els)[i].id) == Some(DedupById(els)[i])
    ensures |DedupById(els)| <= |els|
    ensures |DedupById(els)| == |els| <==> Dict.Distinct(Ids(els))
  {
    var d := Dict.FromPairs(IdPairs(els));
    var r := DedupById(els);
    Dict.FromPairsSpec(IdPairs(els));
    Dict.FirstsSpec(Ids(els));
    Dict.FirstsLength(Ids(els));
    forall i | 0 <= i < |d| ensures d[i].1.id == d[i].0 && Dict.LastValue(IdPairs(els), d[i].0) == Some(d[i].1) {
      Dict.GetAt(d, i);
      LastValueId(els, d[i].0);
    }
    assert Ids(r) == Dict.Keys(d);
  }

  /** The chart count never exceeds the number of matches over the five selectors, and equals it exactly when no element matched twice. */
  lemma ChartCountBound(results: seq<seq<Element>>)
    ensures |DedupById(Flatten(results))| <= SumLengths(results)
    ensures |DedupById(Flatten(results))| == SumLengths(results) <==> Dict.Distinct(Ids(Flatten(results)))
  {
    FlattenSpec(results);
    DedupByIdSpec(Flatten(results));
  }

  // ------------------------------------------------------------ captured lists

  /** `[a.get_attribute("href") for a in links if a.get_attribute("href")]`. */
  function LinkHrefs(links: seq<Element>): (r: seq<string>)
    ensures |r| <= |links|
    ensures forall h :: h in r <==> h != [] && exists a :: a in links && a.href == Some(h)
  {
    if links == [] then []
    else
      var rest := LinkHrefs(links[1..]);
      match links[0].href
      case Some(h) => if h != [] then [h] + rest else rest
      case None => rest
  }

  /** `[b.text.strip() for b in buttons if b.text.strip()]`. */
  function ButtonLabels(buttons: seq<Element>): (r: seq<string>)
    ensures |r| <= |buttons|
    ensures forall s :: s in r ==> s != [] && !IsSpace(s[0]) && !IsSpace(s[|s| - 1])
    ensures forall s :: s in r <==> s != [] && exists b :: b in buttons && Strip(b.text) == s
  {
    if buttons == [] then []
    else
      var rest := ButtonLabels(buttons[1..]);
      var stripped := Strip(buttons[0].text);
      assert forall b :: b in buttons <==> b == buttons[0] || b in buttons[1..];
      if stripped != [] then
        assert forall s :: s in [stripped] + rest <==> s == stripped || s in rest;
        [stripped] + rest
      else rest
  }

  /** Filtering the links piecewise gives the same list: the hrefs keep the relative order of their links. */
  lemma {:induction false} LinkHrefsAppend(a: seq<Element>, b: seq<Element>)
    ensures LinkHrefs(a + b) == LinkHrefs(a) + LinkHrefs(b)
  {
    if a == [] {
      assert a + b == b;
    } else {
      assert (a + b)[0] == a[0] && (a + b)[1..] == a[1..] + b;
      LinkHrefsAppend(a[1..], b);
    }
  }

  /** Likewise the button labels keep the relative order of their buttons. */
  lemma {:induction false} ButtonLabelsAppend(a: seq<Element>, b: seq<Element>)
    ensures ButtonLabels(a + b) == ButtonLabels(a) + ButtonLabels(b)
  {
    if a == [] {
      assert a + b == b;
    } else {
      assert (a + b)[0] == a[0] && (a + b)[1..] == a[1..] + b;
      ButtonLabelsAppend(a[1..], b);
    }
  }

  /** The number of markup characters kept per onclick element. */
  const OuterHtmlBudget: nat := 100

  /** The suffix appended to each truncated markup: the ellipsis "…" encoded as UTF-8 and read back as Windows-1252, three characters. */
  const Ellipsis: string := "\U{00E2}\U{20AC}\U{00A6}"

  /** The onclick list: the first 100 characters of each outerHTML followed by the suffix literal; nothing is filtered out. */
  function OnclickTags(onclicks: seq<Element>): (r: seq<string>)
    ensures |r| == |onclicks|
    ensures forall i :: 0 <= i < |onclicks| ==>
              var html := onclicks[i].outerHtml;
              var m := Min(OuterHtmlBudget, |html|);
              |r[i]| == m + |Ellipsis| && r[i][..m] == html[..m] && r[i][m..] == Ellipsis
  {
    seq(|onclicks|, i requires 0 <= i < |onclicks| =>
      onclicks[i].outerHtml[..Min(OuterHtmlBudget, |onclicks[i].outerHtml|)] + Ellipsis)
  }

  // ------------------------------------------------------------ tables

  /** Table `table` holds one row per tr of `t` and, per row, the stripped text of each cell in order. */
  ghost predicate ExtractedTable(t: Element, table: Table) {
    && |table| == |t.rows|
    && forall j :: 0 <= j < |t.rows| ==>
         |table[j]| == |t.rows[j]| && forall k :: 0 <= k < |t.rows[j]| ==> table[j][k] == Strip(t.rows[j][k])
  }

  ghost predicate Extracted(tables: seq<Element>, data: seq<Table>) {
    |data| == |tables| && forall i :: 0 <= i < |tables| ==> ExtractedTable(tables[i], data[i])
  }

  /** `[cell.text.strip() for cell in cells]`. */
  function RowData(cells: seq<string>): Row
  {
    seq(|cells|, k requires 0 <= k < |cells| => Strip(cells[k]))
  }

  /** The nested loops that build tables_data. */
  method ExtractTables(tables: seq<Element>) returns (tablesData: seq<Table>)
    ensures Extracted(tables, tablesData)
  {
    tablesData := [];
    var i := 0;
    while i < |tables|
      invariant 0 <= i <= |tables|
      invariant Extracted(tables[..i], tablesData)
    {
      var rows := tables[i].rows;
      var tableArray: Table := [];
      var j := 0;
      while j < |rows|
        invariant 0 <= j <= |rows|
        invariant |tableArray| == j
        invariant forall r :: 0 <= r < j ==>
                    |tableArray[r]| == |rows[r]| && forall k :: 0 <= k < |rows[r]| ==> tableArray[r][k] == Strip(rows[r][k])
      {
        tableArray := tableArray + [RowData(rows[j])];
        j := j + 1;
      }
      tablesData := tablesData + [tableArray];
      i := i + 1;
    }
    assert tables[..i] == tables;
  }

  // ------------------------------------------------------------ the document

  /** The tables stored under tables_data, or none. */
  function TablesOf(doc: Counts): seq<Table>
  {
    var v := Dict.Get(doc, TablesDataKey);
    if v.Some? && v.value.TableList? then v.value.tables else []
  }

  /**
   * Length, first and last character: enough to tell the twenty keys apart.
   * The keys are proved distinct through these signatures and their rank in
   * KeySignatures, a much smaller proof than comparing twenty strings pairwise.
   */
  function Signature(key: string): (int, char, char)
  {
    if key == [] then (0, ' ', ' ') else (|key|, key[0], key[|key| - 1])
  }

  const KeySignatures: seq<(int, char, char)> := [
    (15, 'a', 't'), (14, 't', 's'), (20, 'g', 's'), (21, 't', 's'), (15, 'h', 's'),
    (20, 'i', 's'), (6, 't', 's'), (6, 'v', 's'), (10, 's', 's'), (13, 'c', 's'),
    (14, 'm', 's'), (9, 's', 's'), (11, 's', 's'), (10, 'l', 't'), (12, 'b', 't'),
    (13, 'o', 't'), (10, 'l', 's'), (13, 'b', 's'), (12, 'o', 's'), (11, 't', 'a')
  ]

  /** The position of a signature in KeySignatures (20 when absent). */
  function SignatureRank(sig: (int, char, char)): nat
  {
    if sig == (15, 'a', 't') then 0
    else if sig == (14, 't', 's') then 1
    else if sig == (20, 'g', 's') then 2
    else if sig == (21, 't', 's') then 3
    else if sig == (15, 'h', 's') then 4
    else if sig == (20, 'i', 's') then 5
    else if sig == (6, 't', 's') then 6
    else if sig == (6, 'v', 's') then 7
    else if sig == (10, 's', 's') then 8
    else if sig == (13, 'c', 's') then 9
    else if sig == (14, 'm', 's') then 10
    else if sig == (9, 's', 's') then 11
    else if sig == (11, 's', 's') then 12
    else if sig == (10, 'l', 't') then 13
    else if sig == (12, 'b', 't') then 14
    else if sig == (13, 'o', 't') then 15
    else if sig == (10, 'l', 's') then 16
    else if sig == (13, 'b', 's') then 17
    else if sig == (12, 'o', 's') then 18
    else if sig == (11, 't', 'a') then 19
    else 20
  }

  lemma KeySignaturesDistinct()
    ensures Dict.Distinct(KeySignatures)
  {
    forall i | 0 <= i < |KeySignatures| ensures SignatureRank(KeySignatures[i]) == i { }
  }

  lemma KeySignaturesMatch()
    ensures |KeySignatures| == |CountKeys|
    ensures forall i :: 0 <= i < |CountKeys| ==> Signature(CountKeys[i]) == KeySignatures[i]
  {
  }

  /** The twenty keys of the counts document are pairwise different. */
  lemma CountKeysDistinct()
    ensures Dict.Distinct(CountKeys)
  {
    KeySignaturesDistinct();
    KeySignaturesMatch();
    forall i, j | 0 <= i < j < |CountKeys| ensures CountKeys[i] != CountKeys[j] {
      assert KeySignatures[i] != KeySignatures[j];
    }
  }

  /** The first thirteen entries: `counts = {...}`. */
  function BasicCounts(q: QueryResults, chartSvgs: seq<Element>): Counts
  {
    [
      ("alt_image_count", Scalar(|q.altImgs|)),
      ("total_img_tags", Scalar(|q.imgTags|)),
      ("geojson_map_sections", Scalar(|q.geojson|)),
      ("topojson_map_sections", Scalar(|q.topojson|)),
      ("html_image_maps", Scalar(|q.mapTags|)),
      ("iframe_embedded_maps", Scalar(|q.iframeMaps|)),
      ("tables", Scalar(|q.tableTags|)),
      ("videos", Scalar(|q.videos|)),
      ("svg_charts", Scalar(|chartSvgs|)),
      ("canvas_charts", Scalar(|q.canvases|)),
      ("mermaid_charts", Scalar(|q.mermaid|)),
      ("svg_rects", Scalar(|q.svgRects|)),
      ("svg_circles", Scalar(|q.svgCircles|))
    ]
  }

  /** The six entries of `counts.update({...})`, given the three captured lists. */
  function ClickableCounts(q: QueryResults, hrefs: seq<string>, labels: seq<string>, tags: seq<string>): Counts
  {
    [
      ("link_count", Scalar(|q.links|)),
      ("button_count", Scalar(|q.buttons|)),
      ("onclick_count", Scalar(|q.onclicks|)),
      ("link_hrefs", StringList(hrefs)),
      ("button_labels", StringList(labels)),
      ("onclick_tags", StringList(tags))
    ]
  }

  /** The keys of the three stages are the twenty category names, none repeated. */
  lemma StageKeys(basic: Counts, clickable: Counts, last: Counts)
    requires Dict.Keys(basic) == CountKeys[..13]
    requires Dict.Keys(clickable) == CountKeys[13..19]
    requires Dict.Keys(last) == [TablesDataKey]
    ensures Dict.Keys(basic + clickable + last) == CountKeys
    ensures Dict.Distinct(CountKeys)
  {
    assert Dict.Keys(basic + clickable + last) == Dict.Keys(basic) + Dict.Keys(clickable) + Dict.Keys(last);
    CountKeysDistinct();
  }

  /** Looking up each category name of a document with the twenty keys finds the entry at its position. */
  lemma LookupByPosition(doc: Counts)
    requires Dict.Keys(doc) == CountKeys
    ensures forall i :: 0 <= i < |doc| ==> Dict.Get(doc, CountKeys[i]) == Some(doc[i].1)
  {
    CountKeysDistinct();
    forall i | 0 <= i < |doc| ensures Dict.Get(doc, CountKeys[i]) == Some(doc[i].1) {
      Dict.GetAt(doc, i);
    }
  }

  /** The document the three stages build, given the deduplicated charts, the captured lists and the tables. */
  function Document(q: QueryResults, chartSvgs: seq<Element>, hrefs: seq<string>, labels: seq<string>,
                        tags: seq<string>, tablesData: seq<Table>): Counts
  {
    BasicCounts(q, chartSvgs) + ClickableCounts(q, hrefs, labels, tags) + [(TablesDataKey, TableList(tablesData))]
  }

  /** The document has the twenty category names as keys, and only tables_data holds tables. */
  lemma DocumentKeys(q: QueryResults, chartSvgs: seq<Element>, hrefs: seq<string>, labels: seq<string>,
                        tags: seq<string>, tablesData: seq<Table>)
    ensures Dict.Keys(Document(q, chartSvgs, hrefs, labels, tags, tablesData)) == CountKeys
    ensures WellShaped(Document(q, chartSvgs, hrefs, labels, tags, tablesData))
  {
    var basic := BasicCounts(q, chartSvgs);
    var clickable := ClickableCounts(q, hrefs, labels, tags);
    assert Dict.Keys(basic) == CountKeys[..13];
    assert Dict.Keys(clickable) == CountKeys[13..19];
    StageKeys(basic, clickable, [(TablesDataKey, TableList(tablesData))]);
  }

  /** Looking up the image, map, table and video counts finds what the stages stored. */
  lemma DocumentLookupsImages(q: QueryResults, chartSvgs: seq<Element>, hrefs: seq<string>, labels: seq<string>,
                        tags: seq<string>, tablesData: seq<Table>)
    ensures Dict.Get(Document(q, chartSvgs, hrefs, labels, tags, tablesData), "alt_image_count") == Some(Scalar(|q.altImgs|))
    ensures Dict.Get(Document(q, chartSvgs, hrefs, labels, tags, tablesData), "total_img_tags") == Some(Scalar(|q.imgTags|))
    ensures Dict.Get(Document(q, chartSvgs, hrefs, labels, tags, tablesData), "geojson_map_sections") == Some(Scalar(|q.geojson|))
    ensures Dict.Get(Document(q, chartSvgs, hrefs, labels, tags, tablesData), "topojson_map_sections") == Some(Scalar(|q.topojson|))
    ensures Dict.Get(Document(q, chartSvgs, hrefs, labels, tags, tablesData), "html_image_maps") == Some(Scalar(|q.mapTags|))
    ensures Dict.Get(Document(q, chartSvgs, hrefs, labels, tags, tablesData), "iframe_embedded_maps") == Some(Scalar(|q.iframeMaps|))
    ensures Dict.Get(Document(q, chartSvgs, hrefs, labels, tags, tablesData), "tables") == Some(Scalar(|q.tableTags|))
  {
    var doc := Document(q, chartSvgs, hrefs, labels, tags, tablesData);
    DocumentKeys(q, chartSvgs, hrefs, labels, tags, tablesData);
    LookupByPosition(doc);
    assert doc[0].1 == Scalar(|q.altImgs|);
    assert doc[1].1 == Scalar(|q.imgTags|);
    assert doc[2].1 == Scalar(|q.geojson|);
    assert doc[3].1 == Scalar(|q.topojson|);
    assert doc[4].1 == Scalar(|q.mapTags|);
    assert doc[5].1 == Scalar(|q.iframeMaps|);
    assert doc[6].1 == Scalar(|q.tableTags|);
  }

  /** Looking up the chart and SVG primitive counts finds what the stages stored. */
  lemma DocumentLookupsCharts(q: QueryResults, chartSvgs: seq<Element>, hrefs: seq<string>, labels: seq<string>,
                        tags: seq<string>, tablesData: seq<Table>)
    ensures Dict.Get(Document(q, chartSvgs, hrefs, labels, tags, tablesData), "videos") == Some(Scalar(|q.videos|))
    ensures Dict.Get(Document(q, chartSvgs, hrefs, labels, tags, tablesData), "svg_charts") == Some(Scalar(|chartSvgs|))
    ensures Dict.Get(Document(q, chartSvgs, hrefs, labels, tags, tablesData), "canvas_charts") == Some(Scalar(|q.canvases|))
    ensures Dict.Get(Document(q, chartSvgs, hrefs, labels, tags, tablesData), "mermaid_charts") == Some(Scalar(|q.mermaid|))
    ensures Dict.Get(Document(q, chartSvgs, hrefs, labels, tags, tablesData), "svg_rects") == Some(Scalar(|q.svgRects|))
    ensures Dict.Get(Document(q, chartSvgs, hrefs, labels, tags, tablesData), "svg_circles") == Some(Scalar(|q.svgCircles|))
  {
    var doc := Document(q, chartSvgs, hrefs, labels, tags, tablesData);
    DocumentKeys(q, chartSvgs, hrefs, labels, tags, tablesData);
    LookupByPosition(doc);
    assert doc[7].1 == Scalar(|q.videos|);
    assert doc[8].1 == Scalar(|chartSvgs|);
    assert doc[9].1 == Scalar(|q.canvases|);
    assert doc[10].1 == Scalar(|q.mermaid|);
    assert doc[11].1 == Scalar(|q.svgRects|);
    assert doc[12].1 == Scalar(|q.svgCircles|);
  }

  /** Looking up the clickable counts and the captured lists finds what the stages stored. */
  lemma DocumentLookupsClickable(q: QueryResults, chartSvgs: seq<Element>, hrefs: seq<string>, labels: seq<string>,
                        tags: seq<string>, tablesData: seq<Table>)
    ensures Dict.Get(Document(q, chartSvgs, hrefs, labels, tags, tablesData), "link_count") == Some(Scalar(|q.links|))
    ensures Dict.Get(Document(q, chartSvgs, hrefs, labels, tags, tablesData), "button_count") == Some(Scalar(|q.buttons|))
    ensures Dict.Get(Document(q, chartSvgs, hrefs, labels, tags, tablesData), "onclick_count") == Some(Scalar(|q.onclicks|))
    ensures Dict.Get(Document(q, chartSvgs, hrefs, labels, tags, tablesData), "link_hrefs") == Some(StringList(hrefs))
    ensures Dict.Get(Document(q, chartSvgs, hrefs, labels, tags, tablesData), "button_labels") == Some(StringList(labels))
    ensures Dict.Get(Document(q, chartSvgs, hrefs, labels, tags, tablesData), "onclick_tags") == Some(StringList(tags))
    ensures Dict.Get(Document(q, chartSvgs, hrefs, labels, tags, tablesData), TablesDataKey) == Some(TableList(tablesData))
  {
    var doc := Document(q, chartSvgs, hrefs, labels, tags, tablesData);
    DocumentKeys(q, chartSvgs, hrefs, labels, tags, tablesData);
    LookupByPosition(doc);
    assert doc[13].1 == Scalar(|q.links|);
    assert doc[14].1 == Scalar(|q.buttons|);
    assert doc[15].1 == Scalar(|q.onclicks|);
    assert doc[16].1 == StringList(hrefs);
    assert doc[17].1 == StringList(labels);
    assert doc[18].1 == StringList(tags);
    assert doc[19].1 == TableList(tablesData);
  }

  /**
   * count_media_elements once the page is loaded: the dict display of the
   * thirteen basic counts, the update with the six click-related entries,
   * then tables_data.
   */
  method CountMediaElements(q: QueryResults) returns (counts: Counts)
    requires |q.chartSvgs| == |SvgSelectors|
    ensures Dict.Keys(counts) == CountKeys
    ensures WellShaped(counts)
    ensures Dict.Get(counts, "alt_image_count") == Some(Scalar(|q.altImgs|))
    ensures Dict.Get(counts, "total_img_tags") == Some(Scalar(|q.imgTags|))
    ensures Dict.Get(counts, "geojson_map_sections") == Some(Scalar(|q.geojson|))
    ensures Dict.Get(counts, "topojson_map_sections") == Some(Scalar(|q.topojson|))
    ensures Dict.Get(counts, "html_image_maps") == Some(Scalar(|q.mapTags|))
    ensures Dict.Get(counts, "iframe_embedded_maps") == Some(Scalar(|q.iframeMaps|))
    ensures Dict.Get(counts, "tables") == Some(Scalar(|q.tableTags|))
    ensures Dict.Get(counts, "videos") == Some(Scalar(|q.videos|))
    ensures Dict.Get(counts, "svg_charts") == Some(Scalar(|DedupById(Flatten(q.chartSvgs))|))
    ensures Dict.Get(counts, "canvas_charts") == Some(Scalar(|q.canvases|))
    ensures Dict.Get(counts, "mermaid_charts") == Some(Scalar(|q.mermaid|))
    ensures Dict.Get(counts, "svg_rects") == Some(Scalar(|q.svgRects|))
    ensures Dict.Get(counts, "svg_circles") == Some(Scalar(|q.svgCircles|))
    ensures Dict.Get(counts, "link_count") == Some(Scalar(|q.links|))
    ensures Dict.Get(counts, "button_count") == Some(Scalar(|q.buttons|))
    ensures Dict.Get(counts, "onclick_count") == Some(Scalar(|q.onclicks|))
    ensures Dict.Get(counts, "link_hrefs") == Some(StringList(LinkHrefs(q.links)))
    ensures Dict.Get(counts, "button_labels") == Some(StringList(ButtonLabels(q.buttons)))
    ensures Dict.Get(counts, "onclick_tags") == Some(StringList(OnclickTags(q.onclicks)))
    ensures Dict.Get(counts, TablesDataKey).Some? && Dict.Get(counts, TablesDataKey).value.TableList?
    ensures Extracted(q.tableElems, TablesOf(counts))
    ensures q.tableTags == q.tableElems ==> Dict.Get(counts, "tables") == Some(Scalar(|TablesOf(counts)|))
  {
    var chartSvgs := GatherChartSvgs(q.chartSvgs);
    chartSvgs := DedupById(chartSvgs);
    var basic := BasicCounts(q, chartSvgs);
    counts := Dict.FromPairs(basic);

    var hrefs, labels, tags := LinkHrefs(q.links), ButtonLabels(q.buttons), OnclickTags(q.onclicks);
    var clickable := ClickableCounts(q, hrefs, labels, tags);
    counts := Dict.Update(counts, clickable);

    var tablesData := ExtractTables(q.tableElems);
    counts := Dict.Put(counts, TablesDataKey, TableList(tablesData));

    DocumentKeys(q, chartSvgs, hrefs, labels, tags, tablesData);
    CountKeysDistinct();
    Dict.ThreeStages(basic, clickable, TablesDataKey, TableList(tablesData));
    assert counts == Document(q, chartSvgs, hrefs, labels, tags, tablesData);
    DocumentLookupsImages(q, chartSvgs, hrefs, labels, tags, tablesData);
    DocumentLookupsCharts(q, chartSvgs, hrefs, labels, tags, tablesData);
    DocumentLookupsClickable(q, chartSvgs, hrefs, labels, tags, tablesData);
  }
}
