/** `get_robots_and_sitemap`: the `Sitemap:` directives of the seed site's robots.txt. */
module Robots {
  import opened Wrappers
  import opened PyText
  import opened Seqs
  import opened CrawlerTypes

  /** `urljoin(scheme + "://" + netloc, "/robots.txt")` for the base URL. */
  function RobotsUrl(ops: UrlOps, base: Url): Url {
    ops.join(ops.scheme(base) + "://" + ops.netloc(base), "/robots.txt")
  }

  /** What one robots.txt line contributes: the stripped text after its first
      colon, when the line starts with "sitemap" in any letter case and has a colon. */
  function SitemapDirective(line: string): Option<Url> {
    if StartsWithIgnoringCase(line, "sitemap") then
      var colon := IndexOf(line, ':');
      if colon >= 0 then Some(Strip(line[colon + 1..])) else None
    else None
  }

  /** A line yields a directive exactly when it starts with "sitemap" in any
      letter case and holds a colon; the URL is the stripped text after the
      first colon. */
  lemma SitemapDirectiveSpec(line: string)
    ensures SitemapDirective(line).Some? <==> StartsWithIgnoringCase(line, "sitemap") && ':' in line
    ensures SitemapDirective(line).Some? ==> var colon := IndexOf(line, ':');
      0 <= colon && line[colon] == ':' && ':' !in line[..colon]
      && SitemapDirective(line).value == Strip(line[colon + 1..])
  {
    IndexOfSpec(line, ':');
  }

  /** What each line contributes, line by line. */
  function LineDirectives(lines: seq<string>): (r: seq<Option<Url>>)
    ensures |r| == |lines| && forall i :: 0 <= i < |lines| ==> r[i] == SitemapDirective(lines[i])
  {
    seq(|lines|, i requires 0 <= i < |lines| => SitemapDirective(lines[i]))
  }

  /** The directives of a sequence of lines, in line order. */
  function Directives(lines: seq<string>): seq<Url> {
    Somes(LineDirectives(lines))
  }

  /** The sitemap URLs for a base URL: empty when robots.txt cannot be
      retrieved, otherwise the directives of its lines. */
  function Sitemaps(base: Url, env: Env): seq<Url> {
    var url := RobotsUrl(env.ops, base);
    if url in env.robots then Directives(SplitLines(env.robots[url])) else []
  }

  /** `get_robots_and_sitemap(base_url)`: fetch robots.txt and collect its
      directives; nothing when it cannot be retrieved. */
  method GetRobotsAndSitemap(base: Url, env: Env) returns (sitemap: seq<Url>)
    ensures sitemap == Sitemaps(base, env)
    ensures RobotsUrl(env.ops, base) !in env.robots ==> sitemap == []
  {
    var robotsUrl := RobotsUrl(env.ops, base);
    sitemap := [];
    if robotsUrl in env.robots {
      sitemap := CollectDirectives(SplitLines(env.robots[robotsUrl]));
    }
  }

  /** The loop over the lines of robots.txt, appending each directive's URL. */
  method CollectDirectives(lines: seq<string>) returns (sitemap: seq<Url>)
    ensures sitemap == Directives(lines)
  {
    ghost var os := LineDirectives(lines);
    sitemap := [];
    var i := 0;
    while i < |lines|
      invariant 0 <= i <= |lines|
      invariant sitemap == Somes(os[..i])
    {
      var line := lines[i];
      SomesSnoc(os, i);
      assert os[i] == SitemapDirective(line);
      if StartsWithIgnoringCase(line, "sitemap") {
        var colon := IndexOf(line, ':');
        if colon >= 0 {
          assert os[i] == Some(Strip(line[colon + 1..]));
          sitemap := sitemap + [Strip(line[colon + 1..])];
        } else {
          assert os[i] == None;
        }
      } else {
        assert os[i] == None;
      }
      i := i + 1;
    }
    assert os[..|lines|] == os;
  }

  /** A URL is a directive of some lines exactly when one of them yields it. */
  lemma DirectivesMember(lines: seq<string>, u: Url)
    ensures u in Directives(lines) <==> exists i :: 0 <= i < |lines| && SitemapDirective(lines[i]) == Some(u)
  {
    var os := LineDirectives(lines);
    SomesMember(os, u);
    if Some(u) in os {
      var i :| 0 <= i < |os| && os[i] == Some(u);
      assert SitemapDirective(lines[i]) == Some(u);
    }
  }

  /** A URL is a sitemap exactly when some line of the retrieved robots.txt
      yields it. */
  lemma SitemapsMember(base: Url, env: Env, lines: seq<string>, u: Url)
    requires RobotsUrl(env.ops, base) in env.robots
    requires lines == SplitLines(env.robots[RobotsUrl(env.ops, base)])
    ensures u in Sitemaps(base, env) <==> exists i :: 0 <= i < |lines| && SitemapDirective(lines[i]) == Some(u)
  {
    assert Sitemaps(base, env) == Directives(lines);
    DirectivesMember(lines, u);
  }

  /** Directives keep line order: the sitemaps of two blocks of lines are those
      of the first block followed by those of the second. */
  lemma SitemapsInLineOrder(a: seq<string>, b: seq<string>)
    ensures Directives(a + b) == Directives(a) + Directives(b)
  {
    assert LineDirectives(a + b) == LineDirectives(a) + LineDirectives(b);
    SomesAppend(LineDirectives(a), LineDirectives(b));
  }

  /** A directive written the usual way, `Sitemap: <url>`, yields exactly its
      URL, whatever colons the URL itself holds. */
  lemma DirectiveOfUrl(url: Url)
    requires url != [] ==> !IsSpace(url[0]) && !IsSpace(url[|url| - 1])
    ensures SitemapDirective("Sitemap: " + url) == Some(url)
  {
    var line := "Sitemap: " + url;
    assert line[..7] == "Sitemap";
    assert AsciiLower('S') == 's';
    assert StartsWithIgnoringCase(line, "sitemap");
    assert line[7] == ':';
    var colon := IndexOf(line, ':');
    IndexOfSpec(line, ':');
    assert ':' !in line[..7];
    assert colon == 7;
    assert line[8..] == " " + url;
    StripUnchanged(url);
    assert LStrip(" " + url) == LStrip(url) by {
      assert (" " + url)[1..] == url;
    }
  }

  /** A line without a colon gives no directive, whatever its prefix. */
  lemma NoColonNoDirective(line: string)
    requires ':' !in line
    ensures SitemapDirective(line) == None
  {
    SitemapDirectiveSpec(line);
  }

  /** A line that does not start with "sitemap" in any letter case gives no
      directive, whatever colons it holds. */
  lemma OtherDirectiveIgnored(line: string)
    requires !StartsWithIgnoringCase(line, "sitemap")
    ensures SitemapDirective(line) == None
  {
    SitemapDirectiveSpec(line);
  }
}
