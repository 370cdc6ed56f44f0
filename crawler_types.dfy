/** The entities of the Advanced Web Crawler: its configuration, the responses
    it fetches, the parsed HTML it reads and the page records it produces. */
module CrawlerTypes {
  import opened Wrappers
  import opened PyJson

  type Url = string

  /** One element of a parsed HTML document. `text` is what
      `get_text(strip=True)` returns for it, `directString` is its `.string`
      (None when the element has several children), `attrs` its attributes. */
  datatype Element = Element(tag: string, text: string, directString: Option<string>, attrs: map<string, string>)

  /** A parsed document: every element, in document order. */
  type Document = seq<Element>

  /** What a successful fetch gives the crawler: the `Content-Type` header
      (if any), the outcome of `response.json()` (None when decoding raises)
      and the document `BeautifulSoup(response.text)` parses. */
  datatype Response = Response(contentType: Option<string>, json: Option<Json>, doc: Document)

  /** `urljoin(base, ref)`, `urlparse(u).scheme` and `urlparse(u).netloc`:
      library routines, left uninterpreted. */
  datatype UrlOps = UrlOps(join: (Url, string) -> Url, scheme: Url -> string, netloc: Url -> string)

  /** The outside world of one crawl: URL handling, what `fetch_page` returns
      for each URL (a URL that is not a key fails to fetch), and the text of
      each robots.txt that can be retrieved (a URL that is not a key raises). */
  datatype Env = Env(ops: UrlOps, pages: map<Url, Response>, robots: map<Url, string>)

  /** The component's inputs that the crawl reads. */
  datatype Config = Config(
    maxContentLength: int,
    contentTypePreference: string,
    includeMetadata: bool,
    includeHeadings: bool,
    includeParagraphs: bool,
    extractImages: bool,
    extractLinks: bool,
    outputFormat: string,
    maxDepth: int,
    sameDomainOnly: bool)

  /** The `metadata` entry: `title` is None when the title element has no single string. */
  datatype Metadata = Metadata(title: Option<string>, description: string)

  /** The `headings` entry: keys `h1` .. `h6`, in that order, each with its texts. */
  type Headings = seq<(string, seq<string>)>

  /** One entry of the crawl's results. An HTML record holds an entry only when
      its extraction toggle is on. */
  datatype Page =
    | JsonPage(url: Url, json: Json)
    | HtmlPage(
        url: Url,
        metadata: Option<Metadata>,
        headings: Option<Headings>,
        paragraphs: Option<string>,
        images: Option<seq<string>>,
        links: Option<seq<Url>>)
}
