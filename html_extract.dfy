/** `parse_html`: turning one parsed HTML document into a page record, with
    each entry gated by its extraction toggle. */
module HtmlExtract {
  import opened Wrappers
  import opened PyText
  import opened Seqs
  import opened CrawlerTypes

  /** The selector of `soup.find_all(tag)`. */
  function TagIs(tag: string): Element -> Option<Element> {
    (e: Element) => if e.tag == tag then Some(e) else None
  }

  /** `soup.find_all(tag)`: the elements with that tag, in document order. */
  function Select(doc: Document, tag: string): Document {
    FilterMap(doc, TagIs(tag))
  }

  /** An element is selected exactly when it is in the document with that tag. */
  lemma SelectMember(doc: Document, tag: string, e: Element)
    ensures e in Select(doc, tag) <==> e in doc && e.tag == tag
  {
    FilterMapMember(doc, TagIs(tag), e);
    if e in doc && e.tag == tag {
      var i :| 0 <= i < |doc| && doc[i] == e;
      assert TagIs(tag)(doc[i]) == Some(e);
    }
  }

  /** `tag.get_text(strip=True).replace("\n", "")` for each element. */
  function CleanTexts(els: Document): (r: seq<string>)
    ensures |r| == |els|
    ensures forall i :: 0 <= i < |r| ==> '\n' !in r[i]
  {
    seq(|els|, i requires 0 <= i < |els| => RemoveChar(els[i].text, '\n'))
  }

  /** The key `h<level>`. */
  function HeadingKey(level: int): string
    requires 1 <= level <= 6
  {
    "h" + [DigitChar(level)]
  }

  /** The `headings` entry: exactly the keys h1 .. h6 in that order, each
      listing the cleaned texts of the elements with that tag in document order. */
  function HeadingsOf(doc: Document): (r: Headings)
    ensures |r| == 6
    ensures r[0].0 == "h1" && r[1].0 == "h2" && r[2].0 == "h3"
    ensures r[3].0 == "h4" && r[4].0 == "h5" && r[5].0 == "h6"
    ensures forall i :: 0 <= i < 6 ==> r[i].1 == CleanTexts(Select(doc, r[i].0))
  {
    var r := seq(6, i requires 0 <= i < 6 => HeadingLevel(doc, HeadingKey(i + 1)));
    assert HeadingKey(1) == "h1" && HeadingKey(2) == "h2" && HeadingKey(3) == "h3";
    assert HeadingKey(4) == "h4" && HeadingKey(5) == "h5" && HeadingKey(6) == "h6";
    r
  }

  /** One entry of `headings`: a key and the cleaned texts of its elements. */
  function HeadingLevel(doc: Document, key: string): (string, seq<string>) {
    (key, CleanTexts(Select(doc, key)))
  }

  /** `soup.title.string if soup.title else ""`: Some(text), or None when the
      first title element has no single string. */
  function TitleOf(doc: Document): Option<string> {
    var titles := Select(doc, "title");
    if titles == [] then Some("") else titles[0].directString
  }

  /** The selector of `soup.find("meta", attrs={"name": "description"})`. */
  function DescriptionMeta(e: Element): Option<Element> {
    if e.tag == "meta" && "name" in e.attrs && e.attrs["name"] == "description" then Some(e) else None
  }

  /** The description: the `content` of the first description meta element
      when that is non-empty, and "" otherwise. */
  function DescriptionOf(doc: Document): string {
    var metas := FilterMap(doc, DescriptionMeta);
    if metas != [] && "content" in metas[0].attrs && metas[0].attrs["content"] != ""
    then metas[0].attrs["content"]
    else ""
  }

  /** The paragraph cut: to `n` characters and mark with "..." when longer than
      `n`; `s[:n]` keeps Python's meaning for a negative `n`. */
  function Truncate(s: string, n: int): (r: string)
    ensures |s| <= n ==> r == s
    ensures 0 <= n < |s| ==> |r| == n + 3 && r[..n] == s[..n] && r[n..] == "..."
    ensures n >= 0 ==> |r| <= n + 3
    ensures n < 0 ==> r == PyPrefix(s, n) + "..."
  {
    if |s| > n then PyPrefix(s, n) + "..." else s
  }

  /** The `paragraphs` entry: paragraph texts joined by one space, then truncated. */
  function ParagraphsOf(doc: Document, maxLength: int): string {
    Truncate(Join(CleanTexts(Select(doc, "p")), " "), maxLength)
  }

  /** `img.get("src")` when it is truthy. */
  function ImageSource(e: Element): Option<string> {
    if e.tag == "img" && "src" in e.attrs && e.attrs["src"] != "" then Some(e.attrs["src"]) else None
  }

  /** The `images` entry: the non-empty `src` of every image, in document order. */
  function ImagesOf(doc: Document): seq<string> {
    FilterMap(doc, ImageSource)
  }

  /** The images entry holds exactly the non-empty `src` values of image elements. */
  lemma ImagesMember(doc: Document, src: string)
    ensures src in ImagesOf(doc) <==> src != "" && exists i :: 0 <= i < |doc| && doc[i].tag == "img" && "src" in doc[i].attrs && doc[i].attrs["src"] == src
  {
    FilterMapMember(doc, ImageSource, src);
  }

  /** `a.get("href")` for an anchor that has an href attribute (`find_all("a", href=True)`). */
  function AnchorHref(e: Element): Option<string> {
    if e.tag == "a" && "href" in e.attrs then Some(e.attrs["href"]) else None
  }

  /** The href of every anchor that has one, in document order. */
  function AnchorHrefs(doc: Document): seq<string> {
    FilterMap(doc, AnchorHref)
  }

  /** `[urljoin(base, a.get("href")) for a in soup.find_all("a", href=True)]`. */
  function ResolvedLinks(ops: UrlOps, base: Url, doc: Document): (r: seq<Url>)
    ensures |r| == |AnchorHrefs(doc)|
    ensures forall i :: 0 <= i < |r| ==> r[i] == ops.join(base, AnchorHrefs(doc)[i])
  {
    var hrefs := AnchorHrefs(doc);
    seq(|hrefs|, i requires 0 <= i < |hrefs| => ops.join(base, hrefs[i]))
  }

  /** An href is listed exactly when some anchor of the document carries it. */
  lemma AnchorHrefsMember(doc: Document, href: string)
    ensures href in AnchorHrefs(doc) <==> exists i :: 0 <= i < |doc| && doc[i].tag == "a" && "href" in doc[i].attrs && doc[i].attrs["href"] == href
  {
    FilterMapMember(doc, AnchorHref, href);
  }

  /** `parse_html(html, url)`: a record for `url` holding each entry whose toggle is on. */
  function ParseHtml(doc: Document, url: Url, cfg: Config, ops: UrlOps): (p: Page)
    ensures p.HtmlPage? && p.url == url
  {
    HtmlPage(
      url,
      if cfg.includeMetadata then Some(Metadata(TitleOf(doc), DescriptionOf(doc))) else None,
      if cfg.includeHeadings then Some(HeadingsOf(doc)) else None,
      if cfg.includeParagraphs then Some(ParagraphsOf(doc, cfg.maxContentLength)) else None,
      if cfg.extractImages then Some(ImagesOf(doc)) else None,
      if cfg.extractLinks then Some(ResolvedLinks(ops, url, doc)) else None)
  }

  /** Each entry is present exactly when its toggle is on; the headings hold
      six levels, the paragraphs are cut to the length bound (plus "..."),
      no image source is empty, and there is one link per anchor with an href. */
  lemma ParseHtmlShape(doc: Document, url: Url, cfg: Config, ops: UrlOps)
    ensures var p := ParseHtml(doc, url, cfg, ops);
      && (p.metadata.Some? <==> cfg.includeMetadata)
      && (p.headings.Some? <==> cfg.includeHeadings)
      && (p.paragraphs.Some? <==> cfg.includeParagraphs)
      && (p.images.Some? <==> cfg.extractImages)
      && (p.links.Some? <==> cfg.extractLinks)
      && (p.headings.Some? ==> |p.headings.value| == 6)
      && (p.paragraphs.Some? && cfg.maxContentLength >= 0 ==> |p.paragraphs.value| <= cfg.maxContentLength + 3)
      && (p.images.Some? ==> forall i :: 0 <= i < |p.images.value| ==> p.images.value[i] != "")
      && (p.links.Some? ==> |p.links.value| == |AnchorHrefs(doc)|)
  {
    var images := ImagesOf(doc);
    forall i | 0 <= i < |images| ensures images[i] != "" {
      ImagesMember(doc, images[i]);
    }
  }

  /** Cleaning texts works element by element. */
  lemma CleanTextsAppend(x: Document, y: Document)
    ensures CleanTexts(x + y) == CleanTexts(x) + CleanTexts(y)
  {
    var l, r := CleanTexts(x + y), CleanTexts(x) + CleanTexts(y);
    forall i | 0 <= i < |l| ensures l[i] == r[i] {
      if i < |x| {
        assert (x + y)[i] == x[i];
      } else {
        assert (x + y)[i] == y[i - |x|];
      }
    }
  }

  /** Lists of texts are extracted in document order: the texts of a document
      split in two are those of the first part followed by those of the second. */
  lemma DocumentOrder(a: Document, b: Document, tag: string)
    ensures Select(a + b, tag) == Select(a, tag) + Select(b, tag)
    ensures CleanTexts(Select(a + b, tag)) == CleanTexts(Select(a, tag)) + CleanTexts(Select(b, tag))
    ensures ImagesOf(a + b) == ImagesOf(a) + ImagesOf(b)
    ensures AnchorHrefs(a + b) == AnchorHrefs(a) + AnchorHrefs(b)
  {
    FilterMapAppend(a, b, TagIs(tag));
    CleanTextsAppend(Select(a, tag), Select(b, tag));
    FilterMapAppend(a, b, ImageSource);
    FilterMapAppend(a, b, AnchorHref);
  }
}
