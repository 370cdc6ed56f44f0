/** `get_structured_data` and `get_table_output`: the two views of the crawl's
    results that the component outputs. */
module Projection {
  import opened Wrappers
  import opened PyText
  import opened Seqs
  import opened CrawlerTypes
  import opened CrawlEngine

  /** The `Data` output: `{"text": ...}` for the flat text view, `{"pages": ...}` otherwise. */
  datatype Data = Text(text: string) | Pages(pages: seq<Page>)

  /** One row of the table: `url`, `metadata` and `headings` as `page.get`
      returns them (None when absent), `paragraphs` defaulting to "". */
  datatype Row = Row(url: Url, metadata: Option<Metadata>, paragraphs: string, headings: Option<Headings>)

  /** `f"{page['metadata'].get('title', '')}"`: the key is always present, and a
      title that is None renders as "None". */
  function TitleText(m: Metadata): string {
    if m.title.Some? then m.title.value else "None"
  }

  /** The metadata lines of a record: title and description, when present. */
  function MetadataPart(md: Option<Metadata>): seq<string> {
    if md.Some? then ["Title: " + TitleText(md.value), "Description: " + md.value.description] else []
  }

  /** The texts of each heading level, level after level. */
  function LevelTexts(hs: Headings): (r: seq<seq<string>>)
    ensures |r| == |hs| && forall i :: 0 <= i < |hs| ==> r[i] == hs[i].1
  {
    seq(|hs|, i requires 0 <= i < |hs| => hs[i].1)
  }

  /** The heading texts, level after level, each level's texts in document order. */
  function HeadingItems(hs: Headings): seq<string> {
    Concat(LevelTexts(hs))
  }

  /** The heading lines of a record, when present. */
  function HeadingsPart(hs: Option<Headings>): seq<string> {
    if hs.Some? then HeadingItems(hs.value) else []
  }

  /** The paragraph line of a record, when present. */
  function ParagraphsPart(para: Option<string>): seq<string> {
    if para.Some? then [para.value] else []
  }

  /** The lines one page contributes: its metadata lines, its heading texts and
      its paragraph block, each when the record holds that entry. A JSON
      record holds none of them. */
  function PageLines(p: Page): seq<string> {
    match p
    case JsonPage(_, _) => []
    case HtmlPage(_, md, hs, para, _, _) => MetadataPart(md) + HeadingsPart(hs) + ParagraphsPart(para)
  }

  /** The lines of each page, page after page. */
  function PagesLines(ps: seq<Page>): (r: seq<seq<string>>)
    ensures |r| == |ps| && forall i :: 0 <= i < |ps| ==> r[i] == PageLines(ps[i])
  {
    seq(|ps|, i requires 0 <= i < |ps| => PageLines(ps[i]))
  }

  /** The lines of all pages, page after page. */
  function FlatLines(ps: seq<Page>): seq<string> {
    Concat(PagesLines(ps))
  }

  /** What `get_structured_data` makes of the crawl's results. */
  function Structured(outputFormat: string, results: seq<Page>): Data {
    if outputFormat == "flat_text" then Text(Join(FlatLines(results), "\n")) else Pages(results)
  }

  /** The `flat` list, built by appending page after page. */
  method FlattenPages(results: seq<Page>) returns (flat: seq<string>)
    ensures flat == FlatLines(results)
  {
    ghost var lines := PagesLines(results);
    flat := [];
    for i := 0 to |results|
      invariant flat == Concat(lines[..i])
    {
      ConcatSnoc(lines, i);
      flat := AppendPage(flat, results[i]);
    }
    assert lines[..|results|] == lines;
  }

  /** The lines of one record, appended to `flat`. */
  method AppendPage(flat: seq<string>, page: Page) returns (flat': seq<string>)
    ensures flat' == flat + PageLines(page)
  {
    flat' := flat;
    if page.HtmlPage? {
      if page.metadata.Some? {
        flat' := flat' + ["Title: " + TitleText(page.metadata.value)];
        flat' := flat' + ["Description: " + page.metadata.value.description];
      }
      assert flat' == flat + MetadataPart(page.metadata);
      ghost var withMetadata := flat';
      if page.headings.Some? {
        flat' := AppendHeadings(flat', page.headings.value);
      }
      assert flat' == withMetadata + HeadingsPart(page.headings);
      ghost var withHeadings := flat';
      if page.paragraphs.Some? {
        flat' := flat' + [page.paragraphs.value];
      }
      assert flat' == withHeadings + ParagraphsPart(page.paragraphs);
    }
  }

  /** Every level's texts, level after level, appended to `flat`. */
  method AppendHeadings(flat: seq<string>, hs: Headings) returns (flat': seq<string>)
    ensures flat' == flat + HeadingItems(hs)
  {
    ghost var texts := LevelTexts(hs);
    flat' := flat;
    for k := 0 to |hs|
      invariant flat' == flat + Concat(texts[..k])
    {
      ConcatSnoc(texts, k);
      flat' := flat' + hs[k].1;
    }
    assert texts[..|hs|] == texts;
  }

  /** `get_structured_data` after the crawl: the flat text view, or the pages unchanged. */
  method StructuredData(outputFormat: string, results: seq<Page>) returns (d: Data)
    ensures d == Structured(outputFormat, results)
  {
    if outputFormat == "flat_text" {
      var flat := FlattenPages(results);
      return Text(Join(flat, "\n"));
    }
    return Pages(results);
  }

  /** `get_structured_data()`: crawl, then project. */
  method GetStructuredData(seed: Url, cfg: Config, env: Env) returns (d: Data)
    ensures d.Text? <==> cfg.outputFormat == "flat_text"
    ensures d == Structured(cfg.outputFormat, Run(SiteOf(seed, cfg, env), {}, StartQueue(SiteOf(seed, cfg, env)), []))
    ensures exists results :: CrawlOutcome(SiteOf(seed, cfg, env), results) && d == Structured(cfg.outputFormat, results)
  {
    var results := Crawl(seed, cfg, env);
    d := StructuredData(cfg.outputFormat, results);
  }

  /** The lines of pages split in two are those of the first part followed by
      those of the second: the text keeps the order of the results. */
  lemma FlatLinesAppend(a: seq<Page>, b: seq<Page>)
    ensures FlatLines(a + b) == FlatLines(a) + FlatLines(b)
  {
    assert PagesLines(a + b) == PagesLines(a) + PagesLines(b);
    ConcatAppend(PagesLines(a), PagesLines(b));
  }

  /** JSON records contribute no lines. */
  lemma JsonPagesSilent(ps: seq<Page>)
    requires forall i :: 0 <= i < |ps| ==> ps[i].JsonPage?
    ensures FlatLines(ps) == []
  {
    ConcatEmpty(PagesLines(ps));
  }

  /** Heading texts come level by level: the texts of levels split in two are
      those of the first levels followed by those of the rest. */
  lemma HeadingItemsAppend(a: Headings, b: Headings)
    ensures HeadingItems(a + b) == HeadingItems(a) + HeadingItems(b)
  {
    assert LevelTexts(a + b) == LevelTexts(a) + LevelTexts(b);
    ConcatAppend(LevelTexts(a), LevelTexts(b));
  }

  /** A text is among the heading lines exactly when some level lists it. */
  lemma HeadingItemsMember(hs: Headings, x: string)
    ensures x in HeadingItems(hs) <==> exists i :: 0 <= i < |hs| && x in hs[i].1
  {
    ConcatMember(LevelTexts(hs), x);
  }

  /** An HTML record with metadata opens its lines with the title and the
      description, and ends them with its paragraph block when it has one. */
  lemma PageLinesLayout(p: Page)
    requires p.HtmlPage?
    ensures p.metadata.Some? ==>
              |PageLines(p)| >= 2
              && PageLines(p)[0] == "Title: " + TitleText(p.metadata.value)
              && PageLines(p)[1] == "Description: " + p.metadata.value.description
    ensures p.paragraphs.Some? ==> PageLines(p) != [] && PageLines(p)[|PageLines(p)| - 1] == p.paragraphs.value
    ensures |PageLines(p)| ==
              (if p.metadata.Some? then 2 else 0)
              + (if p.headings.Some? then |HeadingItems(p.headings.value)| else 0)
              + (if p.paragraphs.Some? then 1 else 0)
  {
  }

  /** The row of one record. */
  function RowOf(p: Page): Row {
    match p
    case JsonPage(u, _) => Row(u, None, "", None)
    case HtmlPage(u, md, hs, para, _, _) => Row(u, md, para.GetOr(""), hs)
  }

  /** The row loop of `get_table_output`: one row per record, in order. */
  method TableRows(results: seq<Page>) returns (rows: seq<Row>)
    ensures |rows| == |results|
    ensures forall i :: 0 <= i < |rows| ==> rows[i] == RowOf(results[i])
  {
    rows := [];
    for i := 0 to |results|
      invariant |rows| == i
      invariant forall k :: 0 <= k < i ==> rows[k] == RowOf(results[k])
    {
      var page := results[i];
      var row := match page
        case JsonPage(u, _) => Row(u, None, "", None)
        case HtmlPage(u, md, hs, para, _, _) => Row(u, md, if para.Some? then para.value else "", hs);
      rows := rows + [row];
    }
  }

  /** `get_table_output()`: crawl, then one row per record. The rows name each
      crawled URL once, and exactly the fetchable URLs with a record within the
      depth bound. */
  method GetTableOutput(seed: Url, cfg: Config, env: Env) returns (rows: seq<Row>)
    ensures var results := Run(SiteOf(seed, cfg, env), {}, StartQueue(SiteOf(seed, cfg, env)), []);
              |rows| == |results| && forall i :: 0 <= i < |rows| ==> rows[i] == RowOf(results[i])
    ensures exists results :: CrawlOutcome(SiteOf(seed, cfg, env), results) && |rows| == |results|
              && forall i :: 0 <= i < |rows| ==> rows[i] == RowOf(results[i])
    ensures forall i, j :: 0 <= i < j < |rows| ==> rows[i].url != rows[j].url
    ensures forall u :: (exists i :: 0 <= i < |rows| && rows[i].url == u) <==>
              u in env.pages && PageAt(SiteOf(seed, cfg, env), u).Some? && WithinHops(SiteOf(seed, cfg, env), u, cfg.maxDepth)
  {
    var results := Crawl(seed, cfg, env);
    rows := TableRows(results);
    RowUrls(results, rows);
  }

  /** Rows carry their records' URLs, in order. */
  lemma RowUrls(results: seq<Page>, rows: seq<Row>)
    requires |rows| == |results| && forall i :: 0 <= i < |rows| ==> rows[i] == RowOf(results[i])
    ensures forall i :: 0 <= i < |rows| ==> rows[i].url == results[i].url
    ensures forall u :: (exists i :: 0 <= i < |rows| && rows[i].url == u) <==> u in UrlsOf(results)
  {
    forall i | 0 <= i < |rows| ensures rows[i].url == results[i].url {
      RowDefaults(results[i]);
    }
    forall u ensures (exists i :: 0 <= i < |rows| && rows[i].url == u) <==> u in UrlsOf(results) {
      if u in UrlsOf(results) {
        var i :| 0 <= i < |UrlsOf(results)| && UrlsOf(results)[i] == u;
        assert rows[i].url == u;
      }
      if exists i :: 0 <= i < |rows| && rows[i].url == u {
        var i :| 0 <= i < |rows| && rows[i].url == u;
        assert UrlsOf(results)[i] == u;
      }
    }
  }

  /** A row keeps its record's URL, and a missing paragraphs entry reads as "". */
  lemma RowDefaults(p: Page)
    ensures RowOf(p).url == p.url
    ensures p.JsonPage? ==> RowOf(p).metadata == None && RowOf(p).headings == None && RowOf(p).paragraphs == ""
    ensures p.HtmlPage? ==>
              RowOf(p).metadata == p.metadata && RowOf(p).headings == p.headings
              && RowOf(p).paragraphs == (if p.paragraphs.Some? then p.paragraphs.value else "")
  {
  }
}
