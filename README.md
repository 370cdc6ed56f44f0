# Advanced Web Crawler and Gamma Deck Generator, modelled in Dafny

This project models two Langflow components.

The first is the Advanced Web Crawler (`adv_web_crawler.py`):

- the breadth-first `crawl` over a FIFO queue of `(url, depth)` entries,
  with its visited set, depth cut-off, same-host filter on followed links,
  and JSON-or-HTML decision for each fetched page;
- `parse_html`, which builds a page record whose entries are gated by the
  extraction toggles;
- `get_robots_and_sitemap`, which reads the `Sitemap:` lines of the seed
  site's robots.txt;
- the two output projections, `get_structured_data` (the `flat_text` view
  or the pages unchanged) and `get_table_output` (one row per record).

The second is the Gamma Deck Generator's `build` (`gamma.py`): input
validation, conditional assembly of the request body, the status checks on
the POST, the poll loop of at most 24 attempts, and the formatting of the
final message.

The outside world is a parameter of the model:

- `CrawlerTypes.Env` holds what `fetch_page` returns for each URL (a URL
  that is not a key fails to fetch), the text of each robots.txt that can be
  retrieved, and `urljoin` / `urlparse(...).scheme` / `urlparse(...).netloc`
  as uninterpreted functions;
- an HTML document is the sequence of its elements in document order, each
  with its tag, its `get_text(strip=True)` text, its `.string` and its
  attributes;
- `Gamma.GammaApi` gives the answer to the POST and to each poll attempt.

The modules follow the program:

| module | what it holds |
|---|---|
| `Wrappers`, `Seqs`, `PyText`, `PyJson` | `Option`, generic sequence helpers, the Python string operations the code uses (`strip`, `splitlines`, `join`, `lower().startswith`, slicing), JSON values and their truthiness |
| `CrawlerTypes` | configuration, responses, elements, page records |
| `HtmlExtract` | `parse_html` |
| `Robots` | `get_robots_and_sitemap` |
| `CrawlEngine` | `crawl`, its loop invariant and its final characterisation |
| `Projection` | `get_structured_data` and `get_table_output` |
| `Gamma` | `GammaGenerateComponent.build` |

The crawl is specified against a reference definition. `WithinHops(s, u, d)`
holds when `u` can be reached from the seed or a sitemap URL by at most `d`
followed links. A followed link is an in-scope anchor of a fetched page that
takes the HTML branch. `Crawl` is proved to return exactly the records of the
fetchable URLs within `max_depth` hops, each URL once, in breadth-first order.
The exact order is fixed by a second reference, `Run`. It repeats one loop turn
(`Advances`): take the head of the queue, append its record, and queue its
followed links behind every entry already waiting. `Crawl` returns exactly
`Run` from the start queue.

Three points of `crawl` that are easy to misread:

- A URL is added to the visited set only after a successful fetch (line 138),
  not when it is dequeued. A failed fetch leaves it unvisited, so a later
  entry for that URL is fetched again.
- With `max_depth = 0`, every sitemap URL is crawled at depth 0 as well as the
  seed. The bound is one record plus one per sitemap URL
  (`CrawlEngine.DepthZeroBound`).
- A title element without a single string gives the title `None`. The
  `flat_text` view renders it as `Title: None` (`Projection.TitleText`).

## Model

| member | source | states |
|---|---|---|
| CrawlEngine.Crawl | adv_web_crawler.py:116-160 | the results are `Run` from the start queue (FIFO order, each record appended when its URL is first visited) and satisfy `CrawlOutcome`: no URL twice; each entry is the record of its URL; a URL has an entry iff it fetches, yields a record and is within `max_depth` hops; entries come in breadth-first order; no results for a negative depth; only seed and sitemap URLs at depth 0; with same-domain crawling only start URLs or the seed's host |
| CrawlEngine.Step | adv_web_crawler.py:127-159 | one loop turn is `Advances` and keeps the loop invariant: a head that is visited, too deep or fails to fetch is dropped and nothing else changes; otherwise the head becomes visited, its record (if any) is appended to the results, and its followed links (HTML page below the bound) are appended to the rest of the queue in document order; the crawl makes progress (fewer unvisited fetchable URLs, or a shorter queue) |
| CrawlEngine.RunAdvances | adv_web_crawler.py:127-159 | a loop turn leaves the final results unchanged, so the loop computes `Run` |
| CrawlEngine.RunExtends | adv_web_crawler.py:142-151 | the loop only appends to the results: the results so far are a prefix of the final ones |
| CrawlEngine.SeedFirst | adv_web_crawler.py:118-151 | the seed is dequeued first: when it yields a record and `max_depth` is not negative, that record is the first result |
| CrawlEngine.Visit | adv_web_crawler.py:133-159 | visiting an unvisited, fetchable head within the depth bound appends its record (if any) to the results and its followed links to the rest of the queue, marks it visited at its depth and restores the full invariant |
| CrawlEngine.PageFor | adv_web_crawler.py:137-150 | a visited URL yields no record iff it takes the JSON branch and decoding fails; a record carries the URL; the record is JSON iff the JSON branch is taken, and then holds the decoded value |
| CrawlEngine.EnqueueSitemaps | adv_web_crawler.py:118-125 | the first queue is the seed then each sitemap URL, all at depth 0 |
| CrawlEngine.QueueLinks | adv_web_crawler.py:152-159 | the queue grows by exactly `LinkEntries` of the page's resolved anchors |
| CrawlEngine.LinkEntriesMember | adv_web_crawler.py:154-159 | an entry is queued iff it is an anchor of the page, in scope, unvisited, one level deeper than the page |
| CrawlEngine.InitInv | adv_web_crawler.py:117-125 | the initial state satisfies the loop invariant |
| CrawlEngine.SkipStep | adv_web_crawler.py:128-135 | dropping a head that is visited, too deep or failing to fetch keeps the invariant |
| CrawlEngine.VisitStep | adv_web_crawler.py:133-150 | recording a newly visited URL keeps every part of the invariant except the closure of its own links |
| CrawlEngine.LeafClosed | adv_web_crawler.py:140-152 | a JSON page, or an HTML page at the depth bound, follows no links, and the invariant holds again |
| CrawlEngine.LinksQueued | adv_web_crawler.py:152-159 | queueing the page's link entries restores the invariant |
| CrawlEngine.NotReachableEarlier | adv_web_crawler.py:127-130 | the unvisited head of the queue is first visited at its least hop count |
| CrawlEngine.VisitResults | adv_web_crawler.py:138-150 | appending the visited URL's record keeps the results distinct, exact for the visited URLs and depth-ordered |
| CrawlEngine.CompleteAt | adv_web_crawler.py:127-159 | once nothing at depth `e` or less is queued, every fetchable URL within `e` hops is visited within `e` |
| CrawlEngine.FinalRecords | adv_web_crawler.py:129-150 | the final results hold each URL once, each the record of its URL |
| CrawlEngine.FinalExact | adv_web_crawler.py:127-160 | with an empty queue, a URL has a result iff it fetches, yields a record and is within `max_depth` hops |
| CrawlEngine.FinalOrder | adv_web_crawler.py:118-159 | any hop bound that reaches a result reaches every earlier result |
| CrawlEngine.ResultsScope | adv_web_crawler.py:119-157 | no results for a negative depth; only start URLs for depth 0; only start URLs or the seed's host with same-domain crawling |
| CrawlEngine.DepthZeroBound | adv_web_crawler.py:122-130 | with `max_depth` 0 there are at most 1 + (number of sitemap URLs) results |
| CrawlEngine.WithinHopsInScope | adv_web_crawler.py:156-157 | with same-domain crawling, everything reachable is a start URL or on the seed's host |
| CrawlEngine.WithinZeroHops | adv_web_crawler.py:118-125 | within zero hops lie exactly the seed and its sitemap URLs |
| CrawlEngine.UnseenShrinks | adv_web_crawler.py:138 | marking a new fetchable URL visited shrinks the set of unvisited fetchable URLs |
| HtmlExtract.ParseHtml | adv_web_crawler.py:66-98 | the record is an HTML record for the given URL |
| HtmlExtract.ParseHtmlShape | adv_web_crawler.py:70-96 | each of metadata, headings, paragraphs, images and links is present iff its toggle is on; six heading levels; paragraphs at most `max_content_length + 3` long for a non-negative `max_content_length`; no empty image source; one link per anchor with an href |
| HtmlExtract.HeadingsOf | adv_web_crawler.py:79-83 | exactly the keys h1 to h6 in order, each with the cleaned texts of that tag's elements |
| HtmlExtract.CleanTexts | adv_web_crawler.py:82 | one text per element, none holding a newline |
| HtmlExtract.Truncate | adv_web_crawler.py:88-89 | unchanged when not longer than the bound; otherwise the first `n` characters followed by "..."; at most `n + 3` long for a non-negative `n`; Python slice meaning for a negative bound |
| HtmlExtract.SelectMember | adv_web_crawler.py:82 | an element is selected iff it is in the document with that tag |
| HtmlExtract.ImagesMember | adv_web_crawler.py:93 | a source is listed iff it is the non-empty `src` of some image element |
| HtmlExtract.ResolvedLinks | adv_web_crawler.py:96 | one link per anchor with an href, each `urljoin` of the page URL and that href |
| HtmlExtract.AnchorHrefsMember | adv_web_crawler.py:96 | an href is listed iff some anchor of the document carries it |
| HtmlExtract.DocumentOrder | adv_web_crawler.py:82-96 | selections, texts, images and hrefs of two document parts are those of the first followed by those of the second |
| HtmlExtract.CleanTextsAppend | adv_web_crawler.py:82 | texts are cleaned element by element |
| Robots.GetRobotsAndSitemap | adv_web_crawler.py:100-114 | the result is the directives of robots.txt's lines, empty when robots.txt cannot be retrieved |
| Robots.CollectDirectives | adv_web_crawler.py:107-111 | the line loop appends exactly the directives in line order |
| Robots.SitemapDirectiveSpec | adv_web_crawler.py:108-111 | a line yields a directive iff it starts with "sitemap" in any case and holds a colon; the URL is the stripped text after the first colon |
| Robots.DirectivesMember | adv_web_crawler.py:107-111 | a URL is a directive iff some line yields it |
| Robots.SitemapsMember | adv_web_crawler.py:104-111 | a URL is a sitemap iff some line of the retrieved robots.txt yields it |
| Robots.SitemapsInLineOrder | adv_web_crawler.py:107-111 | the directives of two blocks of lines are those of the first then those of the second |
| Robots.DirectiveOfUrl | adv_web_crawler.py:108-111 | `Sitemap: <url>` yields exactly `<url>`, whatever colons the URL holds |
| Robots.NoColonNoDirective | adv_web_crawler.py:109-110 | any line without a colon yields nothing, whatever its prefix |
| Robots.OtherDirectiveIgnored | adv_web_crawler.py:108 | any line that does not start with "sitemap" in some letter case yields nothing, whatever colons it holds |
| Projection.GetStructuredData | adv_web_crawler.py:162-176 | the output is text iff the format is `flat_text`, and it is the projection of exactly the crawl's results in crawl order (`Run` from the start queue), which satisfy `CrawlOutcome` |
| Projection.StructuredData | adv_web_crawler.py:163-176 | the flat text joins `FlatLines` with newlines; any other format gives the pages unchanged |
| Projection.FlattenPages | adv_web_crawler.py:165-174 | the `flat` list is the lines of each page, page after page |
| Projection.AppendPage | adv_web_crawler.py:166-174 | one page appends its title and description, its heading texts, then its paragraph block, each when present |
| Projection.AppendHeadings | adv_web_crawler.py:170-172 | the heading texts are appended level after level |
| Projection.FlatLinesAppend | adv_web_crawler.py:165-174 | the lines of two blocks of pages are those of the first then those of the second |
| Projection.JsonPagesSilent | adv_web_crawler.py:166-174 | JSON records contribute no lines |
| Projection.HeadingItemsAppend | adv_web_crawler.py:170-172 | heading texts come level by level |
| Projection.HeadingItemsMember | adv_web_crawler.py:170-172 | a text is among the heading lines iff some level lists it |
| Projection.PageLinesLayout | adv_web_crawler.py:167-174 | an HTML record's lines start with title and description when it has metadata, end with its paragraph block when it has one, and number exactly 2 + heading texts + 1 for the parts present |
| Projection.GetTableOutput | adv_web_crawler.py:178-190 | one row per result of the crawl, in crawl order (`Run` from the start queue, which satisfies `CrawlOutcome`); row URLs distinct; a URL has a row iff it fetches, yields a record and is within `max_depth` hops |
| Projection.TableRows | adv_web_crawler.py:180-188 | one row per record, in order |
| Projection.RowUrls | adv_web_crawler.py:181-188 | rows carry their records' URLs in order, and a URL has a row iff it has a record |
| Projection.RowDefaults | adv_web_crawler.py:182-187 | a row keeps its record's URL, metadata and headings (absent for JSON records), and its paragraphs or "" |
| Gamma.Build | gamma.py:87-192 | the reply is `Reply`; without an API key the reply is the missing-key error; with a key but no input text it is the no-input error |
| Gamma.RequestBody | gamma.py:98-121 | the body always holds the stripped input text, the text mode (default "generate") and the format (default "presentation"); theme, extra instructions and export format each iff their stripped value is non-empty, with that value; no other key |
| Gamma.AssembleBody | gamma.py:98-121 | the conditionally filled body is `RequestBody` |
| Gamma.PollGeneration | gamma.py:143-181 | the loop ends where `PollFrom` from attempt 0 says |
| Gamma.DeckMessage | gamma.py:186-192 | the message grown by `+=` is the deck lines joined by newlines |
| Gamma.PollsBounded | gamma.py:149 | answers from attempt 24 on never matter: at most 24 polls are made |
| Gamma.FirstNonPending | gamma.py:149-181 | polling ends at the first answer that is not `pending`, with what that answer says |
| Gamma.NoPollAfterStop | gamma.py:157-181 | after an answer that ends the loop, later answers cannot change the outcome |
| Gamma.AllPendingTimesOut | gamma.py:149-184 | 24 `pending` answers end with nothing set and the timeout error |
| Gamma.CompletedWithoutUrl | gamma.py:175-184 | a `completed` answer without a truthy `gammaUrl` gives the timeout error |
| Gamma.PollStatusError | gamma.py:160-161 | a poll status outside 200-299 after only `pending` answers ends polling with the poll error, its code and its text |
| Gamma.PostStatusError | gamma.py:129-130 | a POST status outside 200-299 gives the Gamma error with its code and text, whatever the polls answer |
| Gamma.PollsNeedGenerationId | gamma.py:139-147 | polls can change the reply only after a successful, decoded POST with a truthy `generationId` and with key and text present |
| Gamma.DeckMessageLines | gamma.py:186-192 | when the URLs hold no line breaks, the message splits back into exactly the deck lines |

## Left out

- Network I/O: `requests.get` / `requests.post`, `raise_for_status`, the user agent header and all timeouts. Each fetch, robots.txt request, POST and poll is an oracle result.
- JavaScript rendering (`HTMLSession`, `render`): it changes only how a page is fetched, so it is part of the fetch oracle.
- The 5-second `time.sleep` before each poll: timing only.
- HTML parsing and `get_text(strip=True)` are BeautifulSoup's. A document is given as its element sequence with texts already extracted. `soup.title` is the first `title` element.
- `urljoin` resolves references (section 5.2 of RFC 3986) and `urlparse` splits URLs into components. Both are uninterpreted functions here, so two URL strings are equal only as strings.
- CrawlEngine.Crawl: the modelled `urljoin` / `urlparse` are total and never raise. The library's raise `ValueError` on some malformed URLs (an href such as `http://[x`). Those calls sit outside any `try` in `crawl`, `parse_html` and `get_robots_and_sitemap`, so one such URL makes the whole crawl fail with no results. The model always returns results.
- `response.json()` / `resp.json()` are opaque. For the crawler a decode either succeeds with a value or fails. For Gamma, the decode outcome carries the exception's message.
- `repr()` of decoded JSON values (in the f-strings of the error and success messages) is a parameter. JSON numbers are integers only, with no floats.
- `pandas.DataFrame` construction: the table is the sequence of its rows.
- Logging (`self.log`), component registration, input/output declarations and display metadata: framework plumbing.
- `image_gen.py`, `audio_transcriber.py`, `pdf_page_exyractor.py`: thin wrappers around vendor libraries with too little logic of their own to model (the transcriber's only local logic is a 25 MB size check and an `OggS` header sniff).
- Gamma inputs left unset (`None`) are modelled as the empty string, which `x or ""` treats identically.
- Gamma.RequestBody: the body is a map, so the key insertion order of the JSON body sent is not modelled.
- CrawlEngine.Crawl: the fetch oracle is a fixed map, so every fetch of the same URL during one crawl gives the same answer. The source could see a page change or a transient failure between two fetches.
- CrawlEngine.Site: a crawl carries the sitemap URLs it read when it started; `SiteOf` ties them to the seed's robots.txt.
- CrawlEngine.Step: the loop body is split into `Step`, `Visit` and `QueueLinks`. Robots.CollectDirectives, Projection.AppendPage and Projection.AppendHeadings are the bodies of the source's loops, factored out as methods.
- Gamma.Build: an exception other than the ones the source catches, namely `.get` on a decoded value that is not a dict, is the outcome `Uncaught` and carries no message.
