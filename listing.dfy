/**
 * The listing crawl of the three variants: the URL of each listing page,
 * the per-page de-duplication of job links, and the loop that scrapes the
 * links until the page limit, a page without links, a page without a next
 * link, a failed listing request or the job cap. scraper3.py and
 * all_scraper.py remember every scraped URL across pages; import.py does
 * not. The HTTP requests and the detail scraper are parameters.
 */
module Listing {

  import opened Common
  import opened Text
  import opened Schema
  import opened Page

  datatype Variant = Scraper3 | AllScraper | ImportPy

  // ---------------------------------------------------------------- page URLs

  /** scraper3.py and all_scraper.py: the listing URL for page 1, else `page=n` after '&' or '?'. */
  function PageUrl(listUrl: string, page: int): string {
    if page > 1 then listUrl + (if '?' in listUrl then "&" else "?") + "page=" + Decimal(page) else listUrl
  }

  /** import.py tests `page == 1` instead of `page > 1`. */
  function ImportPageUrl(listUrl: string, page: int): string {
    if page == 1 then listUrl else listUrl + (if '?' in listUrl then "&" else "?") + "page=" + Decimal(page)
  }

  function ListingUrl(v: Variant, listUrl: string, page: int): string {
    if v == ImportPy then ImportPageUrl(listUrl, page) else PageUrl(listUrl, page)
  }

  /** The two forms agree on every page the loops request. */
  lemma PageUrlForms(listUrl: string, page: int)
    requires page >= 1
    ensures ImportPageUrl(listUrl, page) == PageUrl(listUrl, page)
  {
  }

  /**
   * After page 1 the URL is the listing URL, '&' when it already has a
   * query and '?' otherwise, "page=" and a decimal that reads back as the
   * page number.
   */
  lemma PageUrlReadsBack(listUrl: string, page: int)
    ensures page <= 1 ==> PageUrl(listUrl, page) == listUrl
    ensures page > 1 ==>
      var u := PageUrl(listUrl, page);
      |u| > |listUrl| + 6 && u[..|listUrl|] == listUrl &&
      u[|listUrl|] == (if '?' in listUrl then '&' else '?') &&
      u[|listUrl| + 1..|listUrl| + 6] == "page=" &&
      ParseInt(u[|listUrl| + 6..]) == Some(page)
  {
    if page > 1 {
      var u := PageUrl(listUrl, page);
      assert u == listUrl + [if '?' in listUrl then '&' else '?'] + "page=" + Decimal(page);
      assert u[|listUrl| + 6..] == Decimal(page);
      ParseDecimal(page);
    }
  }

  /** Different pages have different URLs. */
  lemma PageUrlsDiffer(listUrl: string, p: int, q: int)
    requires 1 <= p < q
    ensures PageUrl(listUrl, p) != PageUrl(listUrl, q)
  {
    PageUrlReadsBack(listUrl, p);
    PageUrlReadsBack(listUrl, q);
  }

  // ---------------------------------------------------------------- links of one page

  /** The URLs in order, each only at its first occurrence. */
  function Dedup(urls: seq<string>): seq<string>
    decreases |urls|
  {
    if urls == [] then []
    else
      var d := Dedup(urls[..|urls| - 1]);
      var u := urls[|urls| - 1];
      if u in d then d else d + [u]
  }

  /** The two link loops of a listing page: anchors first, then container links, no URL twice. */
  method PageLinks(lp: ListingPage) returns (links: seq<string>)
    ensures links == Dedup(lp.anchorUrls + lp.containerUrls)
  {
    var all := lp.anchorUrls + lp.containerUrls;
    links := [];
    var i := 0;
    while i < |lp.anchorUrls|
      invariant 0 <= i <= |lp.anchorUrls|
      invariant links == Dedup(all[..i])
    {
      assert all[..i + 1][..i] == all[..i];
      var url := lp.anchorUrls[i];
      if url !in links {
        links := links + [url];
      }
      i := i + 1;
    }
    var j := 0;
    while j < |lp.containerUrls|
      invariant 0 <= j <= |lp.containerUrls|
      invariant links == Dedup(all[..i + j])
    {
      assert all[..i + j + 1][..i + j] == all[..i + j];
      var url := lp.containerUrls[j];
      if url !in links {
        links := links + [url];
      }
      j := j + 1;
    }
    assert all[..i + j] == all;
  }

  predicate Distinct(s: seq<string>) {
    forall i, j :: 0 <= i < j < |s| ==> s[i] != s[j]
  }

  /** The de-duplicated links are exactly the page's URLs, each once; a repetition-free list is kept as is. */
  lemma {:induction false} DedupProperties(urls: seq<string>)
    ensures forall u :: u in Dedup(urls) <==> u in urls
    ensures Distinct(Dedup(urls))
    ensures Distinct(urls) ==> Dedup(urls) == urls
    decreases |urls|
  {
    if urls != [] {
      var pre := urls[..|urls| - 1];
      DedupProperties(pre);
      assert urls == pre + [urls[|urls| - 1]];
    }
  }

  // ---------------------------------------------------------------- the crawl

  /** The bookkeeping of the crawl: the records, the remembered URLs, the URLs scraped so far, and whether the cap stopped it. */
  datatype Crawl = Crawl(jobs: seq<Record>, seen: set<string>, visited: seq<string>, capped: bool)

  const Start: Crawl := Crawl([], {}, [], false)

  /** scraper3.py and all_scraper.py skip a URL scraped on an earlier page. */
  predicate Remembers(v: Variant) {
    v != ImportPy
  }

  /** The next-page test: import.py looks only at the link text. */
  predicate NextLink(v: Variant, lp: ListingPage) {
    lp.nextText || (v != ImportPy && lp.nextRel)
  }

  /** A falsy result of the detail scraper is dropped. */
  function Found(r: Option<Record>): seq<Record> {
    if r.Some? then [r.value] else []
  }

  /**
   * The link loop of one page, from the given state. The cap `max_jobs` is
   * an integer; None and 0 are both falsy and are both 0 here.
   */
  function VisitLinks(v: Variant, links: seq<string>, maxJobs: int, detail: string -> Option<Record>, st: Crawl): Crawl
    decreases |links|
  {
    if links == [] then st
    else if maxJobs != 0 && |st.jobs| >= maxJobs then st.(capped := true)
    else if Remembers(v) && links[0] in st.seen then VisitLinks(v, links[1..], maxJobs, detail, st)
    else VisitLinks(v, links[1..], maxJobs, detail, Scrape(v, detail, st, links[0]))
  }

  /** Scraping one URL: remembered (where the variant remembers), recorded as scraped, its record kept when there is one. */
  function Scrape(v: Variant, detail: string -> Option<Record>, st: Crawl, url: string): Crawl {
    var seen := if Remembers(v) then st.seen + {url} else st.seen;
    Crawl(st.jobs + Found(detail(url)), seen, st.visited + [url], st.capped)
  }

  /** The page loop, from page `page` on. */
  function CrawlFrom(v: Variant, listUrl: string, page: int, maxPages: int, maxJobs: int,
                     fetch: string -> Option<ListingPage>, detail: string -> Option<Record>, st: Crawl): Crawl
    decreases maxPages - page
  {
    if page > maxPages then st
    else match fetch(ListingUrl(v, listUrl, page))
      case None => st
      case Some(lp) =>
        var links := Dedup(lp.anchorUrls + lp.containerUrls);
        if links == [] then st
        else
          var st1 := VisitLinks(v, links, maxJobs, detail, st);
          if st1.capped || !NextLink(v, lp) then st1
          else CrawlFrom(v, listUrl, page + 1, maxPages, maxJobs, fetch, detail, st1)
  }

  /** The link loop of one page; the cap returns from the whole crawl. */
  method VisitPage(v: Variant, links: seq<string>, maxJobs: int, detail: string -> Option<Record>,
                   jobs0: seq<Record>, seen0: set<string>, ghost visited0: seq<string>)
    returns (jobs: seq<Record>, seen: set<string>, ghost visited: seq<string>, capped: bool)
    ensures Crawl(jobs, seen, visited, capped) == VisitLinks(v, links, maxJobs, detail, Crawl(jobs0, seen0, visited0, false))
    ensures var c := VisitLinks(v, links, maxJobs, detail, Crawl(jobs0, seen0, visited0, false));
      jobs == c.jobs && seen == c.seen && capped == c.capped
  {
    jobs, seen, visited, capped := jobs0, seen0, visited0, false;
    var i := 0;
    while i < |links|
      invariant 0 <= i <= |links|
      invariant VisitLinks(v, links, maxJobs, detail, Crawl(jobs0, seen0, visited0, false)) ==
                VisitLinks(v, links[i..], maxJobs, detail, Crawl(jobs, seen, visited, false))
    {
      assert links[i..][1..] == links[i + 1..];
      if maxJobs != 0 && |jobs| >= maxJobs {
        capped := true;
        return;
      }
      var url := links[i];
      if Remembers(v) && url in seen {
        i := i + 1;
        continue;
      }
      ghost var next := Scrape(v, detail, Crawl(jobs, seen, visited, false), url);
      if Remembers(v) {
        seen := seen + {url};
      }
      visited := visited + [url];
      var job := detail(url);
      if job.Some? {
        jobs := jobs + [job.value];
      }
      assert Crawl(jobs, seen, visited, false) == next;
      i := i + 1;
    }
  }

  /** `scrape_job_listings`: the records collected by the crawl. */
  method ScrapeListings(v: Variant, listUrl: string, maxPages: int, maxJobs: int,
                        fetch: string -> Option<ListingPage>, detail: string -> Option<Record>)
    returns (jobs: seq<Record>)
    ensures jobs == CrawlFrom(v, listUrl, 1, maxPages, maxJobs, fetch, detail, Start).jobs
  {
    jobs := [];
    var seen: set<string> := {};
    ghost var visited: seq<string> := [];
    var page := 1;
    while page <= maxPages
      invariant CrawlFrom(v, listUrl, 1, maxPages, maxJobs, fetch, detail, Start) ==
                CrawlFrom(v, listUrl, page, maxPages, maxJobs, fetch, detail, Crawl(jobs, seen, visited, false))
      decreases maxPages - page
    {
      var lp := fetch(ListingUrl(v, listUrl, page));
      if lp.None? {
        break;
      }
      var links := PageLinks(lp.value);
      if links == [] {
        break;
      }
      var capped;
      jobs, seen, visited, capped := VisitPage(v, links, maxJobs, detail, jobs, seen, visited);
      if capped {
        return;
      }
      if !NextLink(v, lp.value) {
        break;
      }
      page := page + 1;
    }
  }

  // ---------------------------------------------------------------- properties

  /** With a truthy cap, the link loop never takes the number of records past it. */
  lemma {:induction false} VisitCap(v: Variant, links: seq<string>, maxJobs: int, detail: string -> Option<Record>, st: Crawl)
    requires maxJobs > 0 && |st.jobs| <= maxJobs
    ensures |VisitLinks(v, links, maxJobs, detail, st).jobs| <= maxJobs
    decreases |links|
  {
    if links != [] && |st.jobs| < maxJobs {
      VisitCap(v, links[1..], maxJobs, detail, st);
      VisitCap(v, links[1..], maxJobs, detail, Scrape(v, detail, st, links[0]));
    }
  }

  /** With a truthy cap, the crawl never returns more records than the cap. */
  lemma {:induction false} CrawlCap(v: Variant, listUrl: string, page: int, maxPages: int, maxJobs: int,
                                    fetch: string -> Option<ListingPage>, detail: string -> Option<Record>, st: Crawl)
    requires maxJobs > 0 && |st.jobs| <= maxJobs
    ensures |CrawlFrom(v, listUrl, page, maxPages, maxJobs, fetch, detail, st).jobs| <= maxJobs
    decreases maxPages - page
  {
    if page <= maxPages {
      var lp := fetch(ListingUrl(v, listUrl, page));
      if lp.Some? {
        var links := Dedup(lp.value.anchorUrls + lp.value.containerUrls);
        VisitCap(v, links, maxJobs, detail, st);
        var st1 := VisitLinks(v, links, maxJobs, detail, st);
        CrawlCap(v, listUrl, page + 1, maxPages, maxJobs, fetch, detail, st1);
      }
    }
  }

  /** The records of the scraped URLs, in the order they were scraped. */
  function Results(detail: string -> Option<Record>, urls: seq<string>): seq<Record>
    decreases |urls|
  {
    if urls == [] then [] else Results(detail, urls[..|urls| - 1]) + Found(detail(urls[|urls| - 1]))
  }

  /**
   * The bookkeeping holds: the records are those of the scraped URLs, in
   * order; when the variant remembers URLs, the remembered set is exactly
   * the scraped URLs and none was scraped twice.
   */
  predicate Consistent(v: Variant, detail: string -> Option<Record>, st: Crawl) {
    st.jobs == Results(detail, st.visited) &&
    (Remembers(v) ==> Distinct(st.visited) && st.seen == set u | u in st.visited)
  }

  lemma {:induction false} VisitConsistent(v: Variant, links: seq<string>, maxJobs: int, detail: string -> Option<Record>, st: Crawl)
    requires Consistent(v, detail, st)
    ensures Consistent(v, detail, VisitLinks(v, links, maxJobs, detail, st))
    decreases |links|
  {
    if links != [] && !(maxJobs != 0 && |st.jobs| >= maxJobs) {
      if Remembers(v) && links[0] in st.seen {
        VisitConsistent(v, links[1..], maxJobs, detail, st);
      } else {
        ScrapeConsistent(v, detail, st, links[0]);
        VisitConsistent(v, links[1..], maxJobs, detail, Scrape(v, detail, st, links[0]));
      }
    }
  }

  /** Scraping a URL not remembered yet keeps the bookkeeping consistent. */
  lemma ScrapeConsistent(v: Variant, detail: string -> Option<Record>, st: Crawl, url: string)
    requires Consistent(v, detail, st)
    requires Remembers(v) ==> url !in st.seen
    ensures Consistent(v, detail, Scrape(v, detail, st, url))
  {
    var st1 := Scrape(v, detail, st, url);
    assert st1.visited[..|st1.visited| - 1] == st.visited;
    if Remembers(v) {
      assert url !in st.visited;
      assert st1.seen == set u | u in st1.visited;
    }
  }

  /**
   * Whatever the pages hold, the crawl returns the records of the URLs it
   * scraped, in order; scraper3.py and all_scraper.py scrape no URL twice.
   */
  lemma {:induction false} CrawlConsistent(v: Variant, listUrl: string, page: int, maxPages: int, maxJobs: int,
                                           fetch: string -> Option<ListingPage>, detail: string -> Option<Record>, st: Crawl)
    requires Consistent(v, detail, st)
    ensures Consistent(v, detail, CrawlFrom(v, listUrl, page, maxPages, maxJobs, fetch, detail, st))
    decreases maxPages - page
  {
    if page <= maxPages {
      var lp := fetch(ListingUrl(v, listUrl, page));
      if lp.Some? {
        var links := Dedup(lp.value.anchorUrls + lp.value.containerUrls);
        VisitConsistent(v, links, maxJobs, detail, st);
        var st1 := VisitLinks(v, links, maxJobs, detail, st);
        CrawlConsistent(v, listUrl, page + 1, maxPages, maxJobs, fetch, detail, st1);
      }
    }
  }

  /** A negative cap is truthy and already reached: the first link ends the crawl before anything is scraped. */
  lemma NegativeCap(v: Variant, listUrl: string, maxPages: int, maxJobs: int,
                    fetch: string -> Option<ListingPage>, detail: string -> Option<Record>)
    requires maxJobs < 0
    ensures CrawlFrom(v, listUrl, 1, maxPages, maxJobs, fetch, detail, Start).jobs == []
  {
    if 1 <= maxPages && fetch(ListingUrl(v, listUrl, 1)).Some? {
      var lp := fetch(ListingUrl(v, listUrl, 1)).value;
      var links := Dedup(lp.anchorUrls + lp.containerUrls);
      if links != [] {
        assert VisitLinks(v, links, maxJobs, detail, Start) == Start.(capped := true);
      }
    }
  }

  /** From the start: the records come from the scraped URLs, none scraped twice where URLs are remembered. */
  lemma CrawlFromStart(v: Variant, listUrl: string, maxPages: int, maxJobs: int,
                       fetch: string -> Option<ListingPage>, detail: string -> Option<Record>)
    ensures var c := CrawlFrom(v, listUrl, 1, maxPages, maxJobs, fetch, detail, Start);
      c.jobs == Results(detail, c.visited) &&
      (Remembers(v) ==> Distinct(c.visited)) &&
      (maxJobs > 0 ==> |c.jobs| <= maxJobs) &&
      (maxJobs < 0 ==> c.jobs == [])
  {
    assert Consistent(v, detail, Start);
    if maxJobs < 0 {
      NegativeCap(v, listUrl, maxPages, maxJobs, fetch, detail);
    }
    CrawlConsistent(v, listUrl, 1, maxPages, maxJobs, fetch, detail, Start);
    if maxJobs > 0 {
      CrawlCap(v, listUrl, 1, maxPages, maxJobs, fetch, detail, Start);
    }
  }

  /**
   * import.py keeps no memory across pages: a job linked from two listing
   * pages is scraped twice, where the other variants scrape it once.
   */
  lemma ImportRescrapes(u: string, r: Record, fetch: string -> Option<ListingPage>, detail: string -> Option<Record>)
    requires forall url :: fetch(url) == Some(ListingPage([u], [], true, false))
    requires forall url :: detail(url) == Some(r)
    ensures CrawlFrom(ImportPy, "l", 1, 2, 0, fetch, detail, Start).visited == [u, u]
    ensures CrawlFrom(AllScraper, "l", 1, 2, 0, fetch, detail, Start).visited == [u]
  {
    TwoPages(ImportPy, u, r, fetch, detail);
    TwoPages(AllScraper, u, r, fetch, detail);
  }

  /** Two listing pages that each link only `u`: the second page scrapes `u` again unless the variant remembers it. */
  lemma TwoPages(v: Variant, u: string, r: Record, fetch: string -> Option<ListingPage>, detail: string -> Option<Record>)
    requires forall url :: fetch(url) == Some(ListingPage([u], [], true, false))
    requires forall url :: detail(url) == Some(r)
    ensures CrawlFrom(v, "l", 1, 2, 0, fetch, detail, Start).visited == if Remembers(v) then [u] else [u, u]
  {
    assert Dedup([u] + []) == [u] by {
      assert [u] + [] == [u];
      assert [u][..0] == [];
    }
    OneLink(v, u, detail, Start);
    var once := Scrape(v, detail, Start, u);
    assert CrawlFrom(v, "l", 1, 2, 0, fetch, detail, Start) == CrawlFrom(v, "l", 2, 2, 0, fetch, detail, once);
    OneLink(v, u, detail, once);
    assert CrawlFrom(v, "l", 2, 2, 0, fetch, detail, once) == VisitLinks(v, [u], 0, detail, once);
  }

  /** A page with a single link and no cap. */
  lemma OneLink(v: Variant, u: string, detail: string -> Option<Record>, st: Crawl)
    ensures VisitLinks(v, [u], 0, detail, st) == if Remembers(v) && u in st.seen then st else Scrape(v, detail, st, u)
  {
    assert [u][1..] == [];
  }
}
