/** The breadth-first crawl of `scrape_and_store_locally` (lines 119-189).

    The crawl owns a FIFO queue of normalised URLs (the seed may be None), the set of
    visited URLs, the set of internal links found so far, the stored documents and two
    counters. Fetching and parsing a page is the parameter `fetch`, the UTC clock the
    parameter `clock`; both are outside the model. */
module Crawl {
  import opened Wrappers
  import opened Strings
  import opened UrlParse
  import opened Normalize
  import opened Links
  import opened VisibleText

  /** What one fetch yields: a `requests.RequestException` (an HTTP error status included),
      any other exception while the page is processed, or the parsed page as its
      link-bearing elements and its extracted visible text. */
  datatype Fetched =
    | RequestFailed
    | ProcessingFailed
    | Page(elements: seq<Element>, text: string)

  /** One stored page (`page_document`, lines 171-177). */
  datatype Document = Document(url: string, text: string, textLength: int, scrapedAt: string, domain: string)

  /** `urlparse(base_domain).netloc.lower()`. */
  function BaseNetloc(baseDomain: string): string
  {
    Lower(Parse(baseDomain, "").netloc)
  }

  /** The single classification of a link: its netloc is the base netloc (line 162). */
  predicate IsInternal(link: string, baseNetloc: string)
  {
    Parse(link, "").netloc == baseNetloc
  }

  /** `IsInternal` as the test the crawl loop applies to each found link. */
  function InternalTest(baseNetloc: string): string -> bool
  {
    l => IsInternal(l, baseNetloc)
  }

  /** The links of `links` that `keep` accepts. */
  function Filter(links: set<string>, keep: string -> bool): set<string>
  {
    set l | l in links && keep(l)
  }

  /** The links extracted from the page at `url`; none when its fetch failed. */
  function FoundOn(fetch: string -> Fetched, url: string): set<string>
  {
    if fetch(url).Page? then PageLinks(fetch(url).elements, url) else {}
  }

  /** `FoundOn` for every URL at once. */
  function LinksOfPages(fetch: string -> Fetched): string -> set<string>
  {
    u => FoundOn(fetch, u)
  }

  /** `linksOf` gives, for every URL, the links extracted from its page. */
  ghost predicate LinksFromPages(fetch: string -> Fetched, linksOf: string -> set<string>)
  {
    forall u :: linksOf(u) == FoundOn(fetch, u)
  }

  lemma PagesGiveLinks(fetch: string -> Fetched)
    ensures LinksFromPages(fetch, LinksOfPages(fetch))
  {
    forall u ensures LinksOfPages(fetch)(u) == FoundOn(fetch, u) {
    }
  }

  /** Every link `keep` accepts among the links `linksOf` gives for the pages of `visited`. */
  function Found(visited: set<string>, linksOf: string -> set<string>, keep: string -> bool): set<string>
  {
    set u, l | u in visited && l in Filter(linksOf(u), keep) :: l
  }

  /** The visited URLs whose fetch produced a page. */
  function Pages(visited: set<string>, fetch: string -> Fetched): set<string>
  {
    set u | u in visited && fetch(u).Page?
  }

  function StoredUrls(docs: seq<Document>): set<string>
  {
    set i | 0 <= i < |docs| :: docs[i].url
  }

  /** The document stored for a page: its cleaned text and that text's length. */
  function MakeDocument(url: string, pageText: string, scrapedAt: string, domain: string): Document
  {
    var text := Cleanup(pageText);
    Document(url, text, |text|, scrapedAt, domain)
  }

  /** `normalize_url(start_url)` when it is a URL. */
  function SeedSet(startUrl: string): set<string>
  {
    SeedOf(NormalizeUrl(startUrl, ""))
  }

  predicate NoDuplicates<T(==)>(q: seq<T>)
  {
    forall i, j :: 0 <= i < j < |q| ==> q[i] != q[j]
  }

  /** `max_pages` is truthy: neither None nor 0. */
  predicate CapActive(maxPages: Option<int>)
  {
    maxPages.Some? && maxPages.value != 0
  }

  predicate CapReached(maxPages: Option<int>, pagesCrawled: nat)
  {
    CapActive(maxPages) && pagesCrawled >= maxPages.value
  }

  /** A finite set of URLs that holds every link `keep` accepts on any of its pages. */
  predicate Closed(universe: set<string>, linksOf: string -> set<string>, keep: string -> bool)
  {
    forall u :: u in universe ==> Filter(linksOf(u), keep) <= universe
  }

  lemma ClosedAt(universe: set<string>, linksOf: string -> set<string>, keep: string -> bool, u: string)
    requires Closed(universe, linksOf, keep) && u in universe
    ensures Filter(linksOf(u), keep) <= universe
  {
  }

  lemma FilterNoEmpty(links: set<string>, keep: string -> bool)
    requires "" !in links
    ensures "" !in Filter(links, keep)
  {
  }

  lemma FilterAdd(links: set<string>, link: string, keep: string -> bool)
    ensures Filter(links + {link}, keep) == Filter(links, keep) + (if keep(link) then {link} else {})
  {
  }

  /** `newQueue` is `queue` followed by entries for unvisited URLs of `links`. */
  predicate Extends(queue: seq<Option<string>>, newQueue: seq<Option<string>>, links: set<string>, visited: set<string>)
  {
    |queue| <= |newQueue| && newQueue[..|queue|] == queue
    && forall i :: |queue| <= i < |newQueue| ==>
         newQueue[i].Some? && newQueue[i].value in links && newQueue[i].value !in visited
  }

  /** Lines 160-167: every found link that `keep` accepts (the netloc test of line 162)
      joins the internal links, and is appended to the queue unless it is visited or
      already queued. Python walks the set in an order of its own; the loop here takes
      the links in any order. */
  method EnqueueLinks(found: set<string>, keep: string -> bool, internalLinks: set<string>,
                      visited: set<string>, queue: seq<Option<string>>)
    returns (newInternal: set<string>, newQueue: seq<Option<string>>)
    ensures newInternal == internalLinks + Filter(found, keep)
    ensures Extends(queue, newQueue, Filter(found, keep), visited)
    ensures forall l :: l in Filter(found, keep) && l !in visited ==> Some(l) in newQueue
    ensures NoDuplicates(queue) ==> NoDuplicates(newQueue)
  {
    var remaining := found;
    ghost var done: set<string> := {};
    newInternal := internalLinks;
    newQueue := queue;
    while remaining != {}
      invariant done + remaining == found
      invariant newInternal == internalLinks + Filter(done, keep)
      invariant Extends(queue, newQueue, Filter(done, keep), visited)
      invariant forall l :: l in Filter(done, keep) && l !in visited ==> Some(l) in newQueue
      invariant NoDuplicates(queue) ==> NoDuplicates(newQueue)
      decreases remaining
    {
      var link :| link in remaining;
      FilterAdd(done, link, keep);
      remaining := remaining - {link};
      done := done + {link};
      if keep(link) {
        newInternal := newInternal + {link};
        if link !in visited && Some(link) !in newQueue {
          newQueue := newQueue + [Some(link)];
        }
      }
    }
  }

  // ----- the crawl state and how each step keeps it -----

  function SeedOf(seed: Option<string>): set<string>
  {
    if seed.Some? then {seed.value} else {}
  }

  /** The queue: no duplicates, and every URL in it is non-empty, inside the universe,
      not yet visited, and either the seed or an internal link. */
  predicate QueueOk(queue: seq<Option<string>>, visited: set<string>, internalLinks: set<string>,
                    seed: Option<string>, universe: set<string>)
  {
    NoDuplicates(queue)
    && forall i :: 0 <= i < |queue| && queue[i].Some? ==>
         queue[i].value != "" && queue[i].value in universe && queue[i].value !in visited
         && (queue[i] == seed || queue[i].value in internalLinks)
  }

  /** Every internal link and the seed is visited or still queued. */
  predicate Covered(internalLinks: set<string>, visited: set<string>, queue: seq<Option<string>>, seed: Option<string>)
  {
    (forall l :: l in internalLinks ==> l in visited || Some(l) in queue)
    && (seed.Some? ==> seed.value in visited || seed in queue)
  }

  /** One document per visited URL whose fetch produced a page, stamped with the clock
      reading of its position. */
  predicate DocsOk(docs: seq<Document>, visited: set<string>, fetch: string -> Fetched,
                   clock: nat -> string, baseDomain: string)
  {
    StoredUrls(docs) == Pages(visited, fetch)
    && (forall i, j :: 0 <= i < j < |docs| ==> docs[i].url != docs[j].url)
    && forall i :: 0 <= i < |docs| ==>
         fetch(docs[i].url).Page? && docs[i] == MakeDocument(docs[i].url, fetch(docs[i].url).text, clock(i), baseDomain)
  }

  /** A head that is None, empty or visited is dropped (lines 146-148) without losing anything. */
  lemma SkipHead(queue: seq<Option<string>>, visited: set<string>, internalLinks: set<string>,
                 seed: Option<string>, universe: set<string>)
    requires queue != [] && (queue[0].None? || queue[0].value == "" || queue[0].value in visited)
    requires QueueOk(queue, visited, internalLinks, seed, universe)
    requires Covered(internalLinks, visited, queue, seed)
    ensures QueueOk(queue[1..], visited, internalLinks, seed, universe)
    ensures Covered(internalLinks, visited, queue[1..], seed)
  {
    assert queue == [queue[0]] + queue[1..];
  }

  /** Popping an unvisited head and marking it visited (lines 145-150). */
  lemma PopHead(queue: seq<Option<string>>, visited: set<string>, internalLinks: set<string>,
                seed: Option<string>, universe: set<string>, url: string)
    requires queue != [] && queue[0] == Some(url) && url != "" && url !in visited
    requires QueueOk(queue, visited, internalLinks, seed, universe)
    requires Covered(internalLinks, visited, queue, seed)
    ensures url in universe && (Some(url) == seed || url in internalLinks)
    ensures QueueOk(queue[1..], visited + {url}, internalLinks, seed, universe)
    ensures Covered(internalLinks, visited + {url}, queue[1..], seed)
  {
    assert queue == [queue[0]] + queue[1..];
    forall i | 0 <= i < |queue[1..]| && queue[1..][i].Some?
      ensures queue[1..][i].value != url
    {
      assert queue[1..][i] == queue[i + 1] != queue[0];
    }
  }

  /** Appending the new links of a page (lines 160-167) keeps the queue and the coverage. */
  lemma AppendLinks(queue: seq<Option<string>>, newQueue: seq<Option<string>>, visited: set<string>,
                    internalLinks: set<string>, links: set<string>, seed: Option<string>, universe: set<string>)
    requires QueueOk(queue, visited, internalLinks, seed, universe)
    requires Covered(internalLinks, visited, queue, seed)
    requires Extends(queue, newQueue, links, visited) && NoDuplicates(newQueue)
    requires forall l :: l in links && l !in visited ==> Some(l) in newQueue
    requires links <= universe && "" !in links
    ensures QueueOk(newQueue, visited, internalLinks + links, seed, universe)
    ensures Covered(internalLinks + links, visited, newQueue, seed)
  {
    forall i | 0 <= i < |newQueue| && newQueue[i].Some?
      ensures newQueue[i].value != "" && newQueue[i].value in universe && newQueue[i].value !in visited
              && (newQueue[i] == seed || newQueue[i].value in internalLinks + links)
    {
      if i < |queue| {
        assert newQueue[i] == queue[i];
      }
    }
    forall l | l in internalLinks + links
      ensures l in visited || Some(l) in newQueue
    {
      if l in internalLinks && l !in visited {
        var i :| 0 <= i < |queue| && queue[i] == Some(l);
        assert newQueue[i] == queue[i];
      }
    }
    if seed.Some? && seed.value !in visited {
      var i :| 0 <= i < |queue| && queue[i] == seed;
      assert newQueue[i] == queue[i];
    }
  }

  lemma FoundStep(visited: set<string>, url: string, linksOf: string -> set<string>, keep: string -> bool)
    ensures Found(visited + {url}, linksOf, keep) == Found(visited, linksOf, keep) + Filter(linksOf(url), keep)
  {
  }

  lemma FoundUnchanged(visited: set<string>, url: string, linksOf: string -> set<string>, keep: string -> bool)
    requires linksOf(url) == {}
    ensures Found(visited + {url}, linksOf, keep) == Found(visited, linksOf, keep)
  {
    FoundStep(visited, url, linksOf, keep);
    assert Filter(linksOf(url), keep) == {};
  }

  /** Every internal link the crawl keeps has the base netloc and was extracted from the
      page of a visited URL whose fetch succeeded (lines 158-164). */
  lemma FoundAreInternal(visited: set<string>, fetch: string -> Fetched, baseDomain: string, l: string)
    requires l in Found(visited, LinksOfPages(fetch), InternalTest(BaseNetloc(baseDomain)))
    ensures Parse(l, "").netloc == BaseNetloc(baseDomain)
    ensures exists u :: u in visited && fetch(u).Page? && l in PageLinks(fetch(u).elements, u)
  {
    var u :| u in visited && l in Filter(LinksOfPages(fetch)(u), InternalTest(BaseNetloc(baseDomain)));
    assert fetch(u).Page?;
  }

  lemma PagesStep(visited: set<string>, url: string, fetch: string -> Fetched)
    ensures Pages(visited + {url}, fetch) == Pages(visited, fetch) + (if fetch(url).Page? then {url} else {})
  {
  }

  lemma StoredUrlsAppend(docs: seq<Document>, d: Document)
    ensures StoredUrls(docs + [d]) == StoredUrls(docs) + {d.url}
  {
    var docs' := docs + [d];
    assert forall i :: 0 <= i < |docs| ==> docs'[i] == docs[i];
    assert docs'[|docs|] == d;
  }

  /** Storing the document of a newly visited page (lines 171-178). */
  lemma StoreDocument(docs: seq<Document>, visited: set<string>, fetch: string -> Fetched,
                      clock: nat -> string, baseDomain: string, url: string)
    requires DocsOk(docs, visited, fetch, clock, baseDomain)
    requires url !in visited && fetch(url).Page?
    ensures DocsOk(docs + [MakeDocument(url, fetch(url).text, clock(|docs|), baseDomain)], visited + {url}, fetch, clock, baseDomain)
  {
    var d := MakeDocument(url, fetch(url).text, clock(|docs|), baseDomain);
    var docs' := docs + [d];
    assert d.url == url;
    PagesStep(visited, url, fetch);
    StoredUrlsAppend(docs, d);
    forall i, j | 0 <= i < j < |docs'|
      ensures docs'[i].url != docs'[j].url
    {
      if j == |docs| {
        assert docs[i].url in StoredUrls(docs);
      } else {
        assert docs'[i] == docs[i] && docs'[j] == docs[j];
      }
    }
    forall i | 0 <= i < |docs'|
      ensures fetch(docs'[i].url).Page?
      ensures docs'[i] == MakeDocument(docs'[i].url, fetch(docs'[i].url).text, clock(i), baseDomain)
    {
      if i < |docs| {
        assert docs'[i] == docs[i];
      } else {
        assert docs'[i] == d && i == |docs|;
      }
    }
  }

  /** A failed fetch stores nothing (lines 181-186). */
  lemma SkipDocument(docs: seq<Document>, visited: set<string>, fetch: string -> Fetched,
                     clock: nat -> string, baseDomain: string, url: string)
    requires DocsOk(docs, visited, fetch, clock, baseDomain)
    requires !fetch(url).Page?
    ensures DocsOk(docs, visited + {url}, fetch, clock, baseDomain)
  {
    PagesStep(visited, url, fetch);
  }

  /** A failed fetch yields no links. */
  lemma NoLinksWhenFailed(fetch: string -> Fetched, linksOf: string -> set<string>, url: string)
    requires LinksFromPages(fetch, linksOf)
    requires !fetch(url).Page?
    ensures linksOf(url) == {}
  {
    assert linksOf(url) == FoundOn(fetch, url);
  }

  /** The links of a fetched page are the ones extracted from it. */
  lemma LinksWhenPage(fetch: string -> Fetched, linksOf: string -> set<string>, url: string)
    requires LinksFromPages(fetch, linksOf)
    requires fetch(url).Page?
    ensures linksOf(url) == PageLinks(fetch(url).elements, url)
  {
    assert linksOf(url) == FoundOn(fetch, url);
  }

  /** Every link extracted from a page is a normalised http(s) URL, so never empty. */
  lemma NoEmptyLink(elements: seq<Element>, url: string)
    ensures "" !in PageLinks(elements, url)
  {
    forall x | x in PageLinks(elements, url)
      ensures x != ""
    {
      PageLinksAreNormalized(elements, url, x);
    }
  }

  // ----- the order of the visits -----

  /** `order` lists the visited URLs once each, in the order the crawl visited them: the
      first is the seed, and every later one was found, and accepted by `keep`, on the
      page of an earlier one. */
  ghost predicate CrawlOrder(order: seq<string>, visited: set<string>, seed: Option<string>,
                             linksOf: string -> set<string>, keep: string -> bool)
  {
    NoDuplicates(order) && Lists(order, visited)
    && (order != [] ==> seed == Some(order[0]))
    && FoundEarlier(order, linksOf, keep)
  }

  /** `order` lists exactly the members of `visited`. */
  ghost predicate Lists(order: seq<string>, visited: set<string>)
  {
    forall u :: u in visited <==> u in order
  }

  /** Every URL of `order` after the first was found, and accepted by `keep`, on the page of
      an earlier one. */
  ghost predicate FoundEarlier(order: seq<string>, linksOf: string -> set<string>, keep: string -> bool)
  {
    forall k :: 0 < k < |order| ==>
      exists j :: 0 <= j < k && order[k] in Filter(linksOf(order[j]), keep)
  }

  /** The URLs of `order` whose fetch produced a page, in the same order. */
  function PageOrder(order: seq<string>, fetch: string -> Fetched): (r: seq<string>)
    ensures |r| <= |order|
    ensures forall u :: u in r <==> u in order && fetch(u).Page?
  {
    if order == [] then []
    else
      var last := order[|order| - 1];
      assert order == order[..|order| - 1] + [last];
      PageOrder(order[..|order| - 1], fetch) + (if fetch(last).Page? then [last] else [])
  }

  /** The URLs of the stored documents, in storage order. */
  function DocUrls(docs: seq<Document>): seq<string>
  {
    seq(|docs|, i requires 0 <= i < |docs| => docs[i].url)
  }

  lemma DocUrlsAppend(docs: seq<Document>, d: Document)
    ensures DocUrls(docs + [d]) == DocUrls(docs) + [d.url]
  {
    assert forall i :: 0 <= i < |docs| ==> (docs + [d])[i] == docs[i];
  }

  lemma PageOrderAppend(order: seq<string>, fetch: string -> Fetched, url: string)
    ensures PageOrder(order + [url], fetch) == PageOrder(order, fetch) + (if fetch(url).Page? then [url] else [])
  {
    assert (order + [url])[..|order|] == order;
  }

  /** Visiting the unvisited head `url`, which is the seed or a link found on a visited
      page, extends the visit order by `url`. */
  lemma CrawlStep(order: seq<string>, visited: set<string>, seed: Option<string>,
                  linksOf: string -> set<string>, keep: string -> bool, internalLinks: set<string>, url: string)
    requires CrawlOrder(order, visited, seed, linksOf, keep)
    requires internalLinks == Found(visited, linksOf, keep)
    requires url !in visited && (Some(url) == seed || url in internalLinks)
    ensures CrawlOrder(order + [url], visited + {url}, seed, linksOf, keep)
  {
    var order' := order + [url];
    assert url !in order;
    forall i, j | 0 <= i < j < |order'| ensures order'[i] != order'[j] {
      if j < |order| {
        assert order'[i] == order[i] && order'[j] == order[j];
      } else {
        assert order'[i] == order[i];
      }
    }
    if order == [] {
      assert visited == {};
      assert Found(visited, linksOf, keep) == {};
    } else {
      assert order'[0] == order[0] && order[0] in visited;
      forall k | 0 < k < |order'|
        ensures exists j :: 0 <= j < k && order'[k] in Filter(linksOf(order'[j]), keep)
      {
        if k < |order| {
          var j :| 0 <= j < k && order[k] in Filter(linksOf(order[j]), keep);
          assert order'[j] == order[j] && order'[k] == order[k];
        } else {
          assert url in internalLinks;
          var u :| u in visited && url in Filter(linksOf(u), keep);
          var j :| 0 <= j < |order| && order[j] == u;
          assert order'[j] == u && order'[k] == url;
        }
      }
    }
  }

  /** The documents follow the visit order: visiting `url` stores its document last exactly
      when its fetch produced a page. */
  lemma DocsStep(docs: seq<Document>, newDocs: seq<Document>, order: seq<string>,
                 fetch: string -> Fetched, clock: nat -> string, baseDomain: string, url: string)
    requires DocUrls(docs) == PageOrder(order, fetch)
    requires fetch(url).Page? ==> newDocs == docs + [MakeDocument(url, fetch(url).text, clock(|docs|), baseDomain)]
    requires !fetch(url).Page? ==> newDocs == docs
    ensures DocUrls(newDocs) == PageOrder(order + [url], fetch)
  {
    PageOrderAppend(order, fetch, url);
    if fetch(url).Page? {
      DocUrlsAppend(docs, MakeDocument(url, fetch(url).text, clock(|docs|), baseDomain));
    }
  }

  // ----- breadth-first order -----

  /** The index of the first page of `order` on which `u` was found and accepted by `keep`,
      or `|order|` when no page of `order` links to it. */
  function FirstFinder(order: seq<string>, u: string, linksOf: string -> set<string>, keep: string -> bool): (r: nat)
    ensures r <= |order|
    ensures r < |order| ==> u in Filter(linksOf(order[r]), keep)
    ensures forall j :: 0 <= j < r ==> u !in Filter(linksOf(order[j]), keep)
  {
    if order == [] then 0
    else if u in Filter(linksOf(order[0]), keep) then 0
    else
      var r := 1 + FirstFinder(order[1..], u, linksOf, keep);
      assert forall j :: 1 <= j < |order| ==> order[1..][j - 1] == order[j];
      r
  }

  /** Visiting one more page `x` keeps the first finder of every URL found so far; a URL not
      found so far is now first found on `x` exactly when `x` links to it. */
  lemma FinderAppend(order: seq<string>, x: string, u: string, linksOf: string -> set<string>, keep: string -> bool)
    ensures FirstFinder(order + [x], u, linksOf, keep) ==
              if FirstFinder(order, u, linksOf, keep) < |order| then FirstFinder(order, u, linksOf, keep)
              else if u in Filter(linksOf(x), keep) then |order| else |order| + 1
  {
    var order' := order + [x];
    assert forall j :: 0 <= j < |order| ==> order'[j] == order[j];
    assert order'[|order|] == x;
  }

  /** The visits after the seed come in the order of the pages on which they were first found. */
  ghost predicate InFinderOrder(order: seq<string>, linksOf: string -> set<string>, keep: string -> bool)
  {
    forall k1, k2 {:trigger FirstFinder(order, order[k1], linksOf, keep), FirstFinder(order, order[k2], linksOf, keep)}
      :: 0 < k1 < k2 < |order| ==>
      FirstFinder(order, order[k1], linksOf, keep) <= FirstFinder(order, order[k2], linksOf, keep)
  }

  /** Once the seed is visited, every URL in the queue was found on a visited page, and not
      before any visited URL after the seed or any URL ahead of it in the queue. */
  ghost predicate QueueInFinderOrder(order: seq<string>, queue: seq<Option<string>>,
                                     linksOf: string -> set<string>, keep: string -> bool)
  {
    order != [] ==>
      (forall i :: 0 <= i < |queue| && queue[i].Some? ==> FirstFinder(order, queue[i].value, linksOf, keep) < |order|)
      && (forall i, k {:trigger FirstFinder(order, order[k], linksOf, keep), FirstFinder(order, queue[i].value, linksOf, keep)}
            :: 0 <= i < |queue| && queue[i].Some? && 0 < k < |order| ==>
            FirstFinder(order, order[k], linksOf, keep) <= FirstFinder(order, queue[i].value, linksOf, keep))
      && (forall i1, i2 {:trigger FirstFinder(order, queue[i1].value, linksOf, keep), FirstFinder(order, queue[i2].value, linksOf, keep)}
            :: 0 <= i1 < i2 < |queue| && queue[i1].Some? && queue[i2].Some? ==>
            FirstFinder(order, queue[i1].value, linksOf, keep) <= FirstFinder(order, queue[i2].value, linksOf, keep))
  }

  /** No URL found on a visited page is left unvisited while a URL first found on a later page
      was visited. */
  ghost predicate NoneSkipped(order: seq<string>, visited: set<string>, linksOf: string -> set<string>, keep: string -> bool)
  {
    forall j, l, k :: 0 <= j < |order| && l in Filter(linksOf(order[j]), keep) && l !in visited && 0 < k < |order| ==>
      FirstFinder(order, order[k], linksOf, keep) <= j
  }

  /** Each visit after the seed was found on an earlier page, and keeps its first finder when
      one more page is visited. */
  lemma VisitedRanks(order: seq<string>, url: string, linksOf: string -> set<string>, keep: string -> bool)
    requires FoundEarlier(order, linksOf, keep)
    ensures forall k :: 0 < k < |order| ==>
              FirstFinder(order, order[k], linksOf, keep) < k
              && FirstFinder(order + [url], order[k], linksOf, keep) == FirstFinder(order, order[k], linksOf, keep)
  {
    forall k | 0 < k < |order|
      ensures FirstFinder(order, order[k], linksOf, keep) < k
      ensures FirstFinder(order + [url], order[k], linksOf, keep) == FirstFinder(order, order[k], linksOf, keep)
    {
      var j :| 0 <= j < k && order[k] in Filter(linksOf(order[j]), keep);
      FinderAppend(order, url, order[k], linksOf, keep);
    }
  }

  /** A URL found on a visited page and not visited is queued (lines 160-167). */
  lemma FoundQueued(order: seq<string>, visited: set<string>, internalLinks: set<string>, queue: seq<Option<string>>,
                    seed: Option<string>, linksOf: string -> set<string>, keep: string -> bool, l: string)
    requires Lists(order, visited) && internalLinks == Found(visited, linksOf, keep)
    requires Covered(internalLinks, visited, queue, seed)
    ensures FirstFinder(order, l, linksOf, keep) < |order| && l !in visited ==> Some(l) in queue
  {
    var j := FirstFinder(order, l, linksOf, keep);
    if j < |order| && l !in visited {
      assert order[j] in visited;
      assert l in Found(visited, linksOf, keep);
    }
  }

  /** Before the first visit the queue holds the seed and nothing else that is a URL. */
  lemma OnlySeedQueued(order: seq<string>, visited: set<string>, internalLinks: set<string>, queue: seq<Option<string>>,
                       seed: Option<string>, universe: set<string>, linksOf: string -> set<string>, keep: string -> bool)
    requires Lists(order, visited) && internalLinks == Found(visited, linksOf, keep)
    requires QueueOk(queue, visited, internalLinks, seed, universe)
    requires queue != [] && queue[0].Some?
    ensures order == [] ==> forall i :: 1 <= i < |queue| ==> queue[i].None?
  {
    if order == [] {
      assert visited == {};
      assert Found(visited, linksOf, keep) == {};
      assert forall i :: 0 <= i < |queue| && queue[i].Some? ==> queue[i] == seed;
    }
  }

  /** The first visit after the seed, or any later one, keeps the visits in first-finder order:
      the head of the queue was found no earlier than any visited URL. */
  lemma VisitInFinderOrder(order: seq<string>, queue: seq<Option<string>>, url: string,
                           linksOf: string -> set<string>, keep: string -> bool)
    requires FoundEarlier(order, linksOf, keep)
    requires InFinderOrder(order, linksOf, keep) && QueueInFinderOrder(order, queue, linksOf, keep)
    requires queue != [] && queue[0] == Some(url)
    ensures InFinderOrder(order + [url], linksOf, keep)
  {
    var order' := order + [url];
    VisitedRanks(order, url, linksOf, keep);
    FinderAppend(order, url, url, linksOf, keep);
    forall k1, k2 | 0 < k1 < k2 < |order'|
      ensures FirstFinder(order', order'[k1], linksOf, keep) <= FirstFinder(order', order'[k2], linksOf, keep)
    {
      assert order'[k1] == order[k1];
      if k2 < |order| {
        assert order'[k2] == order[k2];
      } else {
        assert order'[k2] == url;
      }
    }
  }

  /** The first finder of each entry after the head `url` is popped, the page of `url` is
      visited and the newly found links are appended (lines 145-167): a kept entry keeps its
      first finder, an appended one was first found on the page of `url`. */
  lemma EntryRanks(order: seq<string>, visited: set<string>, internalLinks: set<string>, seed: Option<string>,
                   universe: set<string>, queue: seq<Option<string>>, newQueue: seq<Option<string>>, url: string,
                   linksOf: string -> set<string>, keep: string -> bool)
    requires Lists(order, visited) && internalLinks == Found(visited, linksOf, keep)
    requires QueueOk(queue, visited, internalLinks, seed, universe) && Covered(internalLinks, visited, queue, seed)
    requires QueueInFinderOrder(order, queue, linksOf, keep)
    requires queue != [] && queue[0] == Some(url)
    requires Extends(queue[1..], newQueue, Filter(linksOf(url), keep), visited + {url}) && NoDuplicates(newQueue)
    ensures forall i :: 0 <= i < |newQueue| && newQueue[i].Some? ==>
              FirstFinder(order + [url], newQueue[i].value, linksOf, keep)
                == (if i < |queue| - 1 then FirstFinder(order, queue[i + 1].value, linksOf, keep) else |order|)
    ensures forall i :: 0 <= i < |queue| - 1 ==> newQueue[i] == queue[i + 1]
    ensures order == [] ==> forall i :: 0 <= i < |queue| - 1 ==> newQueue[i].None?
  {
    OnlySeedQueued(order, visited, internalLinks, queue, seed, universe, linksOf, keep);
    forall i | 0 <= i < |queue| - 1 ensures newQueue[i] == queue[i + 1] {
      assert newQueue[i] == queue[1..][i];
    }
    forall i | 0 <= i < |newQueue| && newQueue[i].Some?
      ensures FirstFinder(order + [url], newQueue[i].value, linksOf, keep)
                == (if i < |queue| - 1 then FirstFinder(order, queue[i + 1].value, linksOf, keep) else |order|)
    {
      var l := newQueue[i].value;
      if i < |queue| - 1 {
        FinderAppend(order, url, l, linksOf, keep);
      } else {
        assert Some(l) !in queue[1..] by {
          assert forall i0 :: 0 <= i0 < |queue| - 1 ==> queue[1..][i0] == newQueue[i0];
        }
        AppendedRank(order, visited, internalLinks, queue, seed, url, linksOf, keep, l);
      }
    }
  }

  /** A link that the page of the head `url` appends to the queue (lines 166-167) was first
      found on that page. */
  lemma AppendedRank(order: seq<string>, visited: set<string>, internalLinks: set<string>, queue: seq<Option<string>>,
                     seed: Option<string>, url: string, linksOf: string -> set<string>, keep: string -> bool, l: string)
    requires Lists(order, visited) && internalLinks == Found(visited, linksOf, keep)
    requires Covered(internalLinks, visited, queue, seed)
    requires queue != [] && queue[0] == Some(url)
    requires l in Filter(linksOf(url), keep) && l !in visited + {url} && Some(l) !in queue[1..]
    ensures FirstFinder(order + [url], l, linksOf, keep) == |order|
  {
    FinderAppend(order, url, l, linksOf, keep);
    FoundQueued(order, visited, internalLinks, queue, seed, linksOf, keep, l);
    assert Some(l) !in queue by {
      assert forall i :: 1 <= i < |queue| ==> queue[i] == queue[1..][i - 1];
    }
  }

  /** Popping the head `url`, visiting it and appending the newly found links (lines 145-167)
      keeps the queue in first-finder order: the kept entries were found on earlier pages, the
      appended ones on the page of `url`. */
  lemma QueueStep(order: seq<string>, visited: set<string>, internalLinks: set<string>, seed: Option<string>,
                  universe: set<string>, queue: seq<Option<string>>, newQueue: seq<Option<string>>, url: string,
                  linksOf: string -> set<string>, keep: string -> bool)
    requires FoundEarlier(order, linksOf, keep) && Lists(order, visited)
    requires internalLinks == Found(visited, linksOf, keep)
    requires QueueOk(queue, visited, internalLinks, seed, universe) && Covered(internalLinks, visited, queue, seed)
    requires QueueInFinderOrder(order, queue, linksOf, keep)
    requires queue != [] && queue[0] == Some(url)
    requires Extends(queue[1..], newQueue, Filter(linksOf(url), keep), visited + {url}) && NoDuplicates(newQueue)
    ensures QueueInFinderOrder(order + [url], newQueue, linksOf, keep)
  {
    EntryRanks(order, visited, internalLinks, seed, universe, queue, newQueue, url, linksOf, keep);
    VisitedRanks(order, url, linksOf, keep);
    FinderAppend(order, url, url, linksOf, keep);
    var order' := order + [url];
    if order != [] {
      forall i, k | 0 <= i < |newQueue| && newQueue[i].Some? && 0 < k < |order'|
        ensures FirstFinder(order', order'[k], linksOf, keep) <= FirstFinder(order', newQueue[i].value, linksOf, keep)
      {
        if k < |order| {
          assert order'[k] == order[k];
        } else {
          assert order'[k] == url;
        }
      }
    }
  }

  /** One visit (lines 145-167) keeps the visits and the queue in first-finder order. */
  lemma BreadthFirstStep(order: seq<string>, visited: set<string>, internalLinks: set<string>, seed: Option<string>,
                         universe: set<string>, queue: seq<Option<string>>, newQueue: seq<Option<string>>, url: string,
                         linksOf: string -> set<string>, keep: string -> bool)
    requires CrawlOrder(order, visited, seed, linksOf, keep)
    requires internalLinks == Found(visited, linksOf, keep)
    requires QueueOk(queue, visited, internalLinks, seed, universe) && Covered(internalLinks, visited, queue, seed)
    requires InFinderOrder(order, linksOf, keep) && QueueInFinderOrder(order, queue, linksOf, keep)
    requires queue != [] && queue[0] == Some(url)
    requires Extends(queue[1..], newQueue, Filter(linksOf(url), keep), visited + {url}) && NoDuplicates(newQueue)
    ensures InFinderOrder(order + [url], linksOf, keep) && QueueInFinderOrder(order + [url], newQueue, linksOf, keep)
  {
    VisitInFinderOrder(order, queue, url, linksOf, keep);
    QueueStep(order, visited, internalLinks, seed, universe, queue, newQueue, url, linksOf, keep);
  }

  /** A visit that appends nothing leaves the rest of the queue as it was. */
  lemma TailExtends(queue: seq<Option<string>>, links: set<string>, visited: set<string>)
    requires queue != [] && NoDuplicates(queue)
    ensures Extends(queue[1..], queue[1..], links, visited) && NoDuplicates(queue[1..])
  {
    assert forall i :: 0 <= i < |queue[1..]| ==> queue[1..][i] == queue[i + 1];
  }

  /** Dropping the head of the queue (lines 145-147) keeps it in first-finder order. */
  lemma QueueTail(order: seq<string>, queue: seq<Option<string>>, linksOf: string -> set<string>, keep: string -> bool)
    requires queue != [] && QueueInFinderOrder(order, queue, linksOf, keep)
    ensures QueueInFinderOrder(order, queue[1..], linksOf, keep)
  {
    assert forall i :: 0 <= i < |queue[1..]| ==> queue[1..][i] == queue[i + 1];
  }

  /** At any point of the crawl, an unvisited URL found on a visited page is queued, so no
      visited URL after the seed was first found on a later page than it. */
  lemma NoneSkippedNow(order: seq<string>, visited: set<string>, internalLinks: set<string>, queue: seq<Option<string>>,
                       seed: Option<string>, linksOf: string -> set<string>, keep: string -> bool)
    requires Lists(order, visited) && internalLinks == Found(visited, linksOf, keep)
    requires Covered(internalLinks, visited, queue, seed)
    requires QueueInFinderOrder(order, queue, linksOf, keep)
    ensures NoneSkipped(order, visited, linksOf, keep)
  {
    forall j, l, k | 0 <= j < |order| && l in Filter(linksOf(order[j]), keep) && l !in visited && 0 < k < |order|
      ensures FirstFinder(order, order[k], linksOf, keep) <= j
    {
      FoundQueued(order, visited, internalLinks, queue, seed, linksOf, keep, l);
      var i :| 0 <= i < |queue| && queue[i] == Some(l);
    }
  }

  // ----- the whole loop invariant and one lemma per branch of the loop body -----

  /** The inputs the loop never changes. */
  datatype Setting = Setting(seed: Option<string>, isInternal: string -> bool, baseDomain: string,
                             maxPages: Option<int>, fetch: string -> Fetched, clock: nat -> string,
                             linksOf: string -> set<string>)

  /** The loop's local state (lines 122-135): queue, visited, internal links, documents and counters. */
  datatype Frontier = Frontier(queue: seq<Option<string>>, visited: set<string>, internalLinks: set<string>,
                               docs: seq<Document>, pagesCrawled: nat, pagesStored: nat)

  function CapBound(maxPages: Option<int>): int
    requires CapActive(maxPages)
  {
    if maxPages.value < 0 then 0 else maxPages.value
  }

  predicate Inv(s: Setting, universe: set<string>, f: Frontier)
  {
    f.visited <= universe
    && QueueOk(f.queue, f.visited, f.internalLinks, s.seed, universe)
    && Covered(f.internalLinks, f.visited, f.queue, s.seed)
    && f.internalLinks == Found(f.visited, s.linksOf, s.isInternal)
    && f.visited <= f.internalLinks + SeedOf(s.seed)
    && f.pagesCrawled == |f.visited| && f.pagesStored == |f.docs| <= f.pagesCrawled
    && DocsOk(f.docs, f.visited, s.fetch, s.clock, s.baseDomain)
    && (CapActive(s.maxPages) ==> f.pagesCrawled <= CapBound(s.maxPages))
  }

  lemma InvInit(s: Setting, universe: set<string>)
    requires s.seed.Some? ==> s.seed.value != ""
    requires SeedOf(s.seed) <= universe
    ensures Inv(s, universe, Frontier([s.seed], {}, {}, [], 0, 0))
  {
    assert Found({}, s.linksOf, s.isInternal) == {};
    assert StoredUrls([]) == {};
    assert Pages({}, s.fetch) == {};
  }

  lemma InvSkip(s: Setting, universe: set<string>, f: Frontier)
    requires Inv(s, universe, f)
    requires f.queue != [] && (f.queue[0].None? || f.queue[0].value == "" || f.queue[0].value in f.visited)
    ensures Inv(s, universe, Frontier(f.queue[1..], f.visited, f.internalLinks, f.docs, f.pagesCrawled, f.pagesStored))
  {
    SkipHead(f.queue, f.visited, f.internalLinks, s.seed, universe);
  }

  /** Marking an unvisited URL of the universe as visited brings the crawl one step closer
      to exhausting the universe, and counts one more page (lines 149-150). */
  lemma VisitCount(universe: set<string>, visited: set<string>, url: string, pagesCrawled: nat,
                   maxPages: Option<int>)
    requires visited <= universe && url in universe && url !in visited
    requires pagesCrawled == |visited|
    requires CapActive(maxPages) ==> pagesCrawled <= CapBound(maxPages)
    requires !CapReached(maxPages, pagesCrawled)
    ensures |universe - (visited + {url})| < |universe - visited|
    ensures visited + {url} <= universe
    ensures pagesCrawled + 1 == |visited + {url}|
    ensures CapActive(maxPages) ==> pagesCrawled + 1 <= CapBound(maxPages)
  {
    assert universe - (visited + {url}) == (universe - visited) - {url};
  }

  /** The URL at the head of a well-formed queue lies in the universe and is the seed or an
      internal link. */
  lemma HeadOk(queue: seq<Option<string>>, visited: set<string>, internalLinks: set<string>,
               seed: Option<string>, universe: set<string>, url: string)
    requires QueueOk(queue, visited, internalLinks, seed, universe)
    requires queue != [] && queue[0] == Some(url)
    ensures url in universe && (Some(url) == seed || url in internalLinks)
  {
  }

  /** The unvisited head `url` is taken off the queue and counted (lines 145-150). */
  lemma VisitHead(s: Setting, universe: set<string>, f: Frontier, url: string)
    requires f.visited <= universe
    requires QueueOk(f.queue, f.visited, f.internalLinks, s.seed, universe)
    requires f.visited <= f.internalLinks + SeedOf(s.seed)
    requires f.pagesCrawled == |f.visited|
    requires CapActive(s.maxPages) ==> f.pagesCrawled <= CapBound(s.maxPages)
    requires !CapReached(s.maxPages, f.pagesCrawled)
    requires f.queue != [] && f.queue[0] == Some(url) && url != "" && url !in f.visited
    ensures |universe - (f.visited + {url})| < |universe - f.visited|
    ensures f.visited + {url} <= universe
    ensures f.visited + {url} <= f.internalLinks + SeedOf(s.seed)
    ensures f.pagesCrawled + 1 == |f.visited + {url}|
    ensures CapActive(s.maxPages) ==> f.pagesCrawled + 1 <= CapBound(s.maxPages)
  {
    HeadOk(f.queue, f.visited, f.internalLinks, s.seed, universe, url);
    VisitCount(universe, f.visited, url, f.pagesCrawled, s.maxPages);
  }

  /** Builds the invariant from its parts. */
  lemma InvIntro(s: Setting, universe: set<string>, queue: seq<Option<string>>, visited: set<string>,
                 internalLinks: set<string>, docs: seq<Document>, pagesCrawled: nat, pagesStored: nat)
    requires visited <= universe
    requires QueueOk(queue, visited, internalLinks, s.seed, universe)
    requires Covered(internalLinks, visited, queue, s.seed)
    requires internalLinks == Found(visited, s.linksOf, s.isInternal)
    requires visited <= internalLinks + SeedOf(s.seed)
    requires pagesCrawled == |visited| && pagesStored == |docs| <= pagesCrawled
    requires DocsOk(docs, visited, s.fetch, s.clock, s.baseDomain)
    requires CapActive(s.maxPages) ==> pagesCrawled <= CapBound(s.maxPages)
    ensures Inv(s, universe, Frontier(queue, visited, internalLinks, docs, pagesCrawled, pagesStored))
  {
  }

  /** The parts of the invariant after a failed fetch of the head `url`. */
  lemma VisitFailed(s: Setting, universe: set<string>, f: Frontier, url: string)
    requires Inv(s, universe, f) && !CapReached(s.maxPages, f.pagesCrawled)
    requires f.queue != [] && f.queue[0] == Some(url) && url != "" && url !in f.visited
    requires !s.fetch(url).Page? && s.linksOf(url) == {}
    ensures |universe - (f.visited + {url})| < |universe - f.visited|
    ensures f.visited + {url} <= universe
    ensures QueueOk(f.queue[1..], f.visited + {url}, f.internalLinks, s.seed, universe)
    ensures Covered(f.internalLinks, f.visited + {url}, f.queue[1..], s.seed)
    ensures f.internalLinks == Found(f.visited + {url}, s.linksOf, s.isInternal)
    ensures f.visited + {url} <= f.internalLinks + SeedOf(s.seed)
    ensures f.pagesCrawled + 1 == |f.visited + {url}| && f.pagesStored == |f.docs| <= f.pagesCrawled + 1
    ensures DocsOk(f.docs, f.visited + {url}, s.fetch, s.clock, s.baseDomain)
    ensures CapActive(s.maxPages) ==> f.pagesCrawled + 1 <= CapBound(s.maxPages)
  {
    VisitHead(s, universe, f, url);
    PopHead(f.queue, f.visited, f.internalLinks, s.seed, universe, url);
    FoundUnchanged(f.visited, url, s.linksOf, s.isInternal);
    SkipDocument(f.docs, f.visited, s.fetch, s.clock, s.baseDomain, url);
  }

  /** A failed fetch (lines 181-186): the URL stays visited, nothing else changes. */
  lemma InvFailed(s: Setting, universe: set<string>, f: Frontier, url: string)
    requires Inv(s, universe, f) && !CapReached(s.maxPages, f.pagesCrawled)
    requires f.queue != [] && f.queue[0] == Some(url) && url != "" && url !in f.visited
    requires !s.fetch(url).Page? && s.linksOf(url) == {}
    ensures |universe - (f.visited + {url})| < |universe - f.visited|
    ensures Inv(s, universe, Frontier(f.queue[1..], f.visited + {url}, f.internalLinks, f.docs, f.pagesCrawled + 1, f.pagesStored))
  {
    VisitFailed(s, universe, f, url);
    InvIntro(s, universe, f.queue[1..], f.visited + {url}, f.internalLinks, f.docs, f.pagesCrawled + 1, f.pagesStored);
  }

  /** The queue after a fetched page: the popped head gone, the page's new internal links
      appended (lines 145-167). */
  lemma PageQueue(s: Setting, universe: set<string>, f: Frontier, url: string,
                  newInternal: set<string>, newQueue: seq<Option<string>>)
    requires Closed(universe, s.linksOf, s.isInternal)
    requires f.visited <= universe
    requires QueueOk(f.queue, f.visited, f.internalLinks, s.seed, universe)
    requires Covered(f.internalLinks, f.visited, f.queue, s.seed)
    requires f.queue != [] && f.queue[0] == Some(url) && url != "" && url !in f.visited
    requires "" !in s.linksOf(url)
    requires newInternal == f.internalLinks + Filter(s.linksOf(url), s.isInternal)
    requires Extends(f.queue[1..], newQueue, Filter(s.linksOf(url), s.isInternal), f.visited + {url})
    requires forall l :: l in Filter(s.linksOf(url), s.isInternal) && l !in f.visited + {url} ==> Some(l) in newQueue
    requires NoDuplicates(f.queue[1..]) ==> NoDuplicates(newQueue)
    ensures QueueOk(newQueue, f.visited + {url}, newInternal, s.seed, universe)
    ensures Covered(newInternal, f.visited + {url}, newQueue, s.seed)
  {
    var links := Filter(s.linksOf(url), s.isInternal);
    PopHead(f.queue, f.visited, f.internalLinks, s.seed, universe, url);
    ClosedAt(universe, s.linksOf, s.isInternal, url);
    FilterNoEmpty(s.linksOf(url), s.isInternal);
    AppendLinks(f.queue[1..], newQueue, f.visited + {url}, f.internalLinks, links, s.seed, universe);
  }

  /** The parts of the invariant after the page at the head `url` is fetched. */
  lemma VisitPage(s: Setting, universe: set<string>, f: Frontier, url: string,
                  newInternal: set<string>, newQueue: seq<Option<string>>)
    requires Closed(universe, s.linksOf, s.isInternal)
    requires Inv(s, universe, f) && !CapReached(s.maxPages, f.pagesCrawled)
    requires f.queue != [] && f.queue[0] == Some(url) && url != "" && url !in f.visited
    requires s.fetch(url).Page? && "" !in s.linksOf(url)
    requires newInternal == f.internalLinks + Filter(s.linksOf(url), s.isInternal)
    requires Extends(f.queue[1..], newQueue, Filter(s.linksOf(url), s.isInternal), f.visited + {url})
    requires forall l :: l in Filter(s.linksOf(url), s.isInternal) && l !in f.visited + {url} ==> Some(l) in newQueue
    requires NoDuplicates(f.queue[1..]) ==> NoDuplicates(newQueue)
    ensures |universe - (f.visited + {url})| < |universe - f.visited|
    ensures f.visited + {url} <= universe
    ensures QueueOk(newQueue, f.visited + {url}, newInternal, s.seed, universe)
    ensures Covered(newInternal, f.visited + {url}, newQueue, s.seed)
    ensures newInternal == Found(f.visited + {url}, s.linksOf, s.isInternal)
    ensures f.visited + {url} <= newInternal + SeedOf(s.seed)
    ensures f.pagesCrawled + 1 == |f.visited + {url}| && f.pagesStored + 1 == |f.docs| + 1 <= f.pagesCrawled + 1
    ensures DocsOk(f.docs + [MakeDocument(url, s.fetch(url).text, s.clock(|f.docs|), s.baseDomain)],
                   f.visited + {url}, s.fetch, s.clock, s.baseDomain)
    ensures CapActive(s.maxPages) ==> f.pagesCrawled + 1 <= CapBound(s.maxPages)
  {
    VisitHead(s, universe, f, url);
    PageQueue(s, universe, f, url, newInternal, newQueue);
    FoundStep(f.visited, url, s.linksOf, s.isInternal);
    StoreDocument(f.docs, f.visited, s.fetch, s.clock, s.baseDomain, url);
  }

  /** A fetched page (lines 153-178): its internal links are recorded and queued, and its
      document is stored. */
  lemma InvPage(s: Setting, universe: set<string>, f: Frontier, url: string,
                newInternal: set<string>, newQueue: seq<Option<string>>, newDocs: seq<Document>)
    requires Closed(universe, s.linksOf, s.isInternal)
    requires Inv(s, universe, f) && !CapReached(s.maxPages, f.pagesCrawled)
    requires f.queue != [] && f.queue[0] == Some(url) && url != "" && url !in f.visited
    requires s.fetch(url).Page? && "" !in s.linksOf(url)
    requires newInternal == f.internalLinks + Filter(s.linksOf(url), s.isInternal)
    requires Extends(f.queue[1..], newQueue, Filter(s.linksOf(url), s.isInternal), f.visited + {url})
    requires forall l :: l in Filter(s.linksOf(url), s.isInternal) && l !in f.visited + {url} ==> Some(l) in newQueue
    requires NoDuplicates(f.queue[1..]) ==> NoDuplicates(newQueue)
    requires newDocs == f.docs + [MakeDocument(url, s.fetch(url).text, s.clock(|f.docs|), s.baseDomain)]
    ensures |universe - (f.visited + {url})| < |universe - f.visited|
    ensures Inv(s, universe, Frontier(newQueue, f.visited + {url}, newInternal, newDocs, f.pagesCrawled + 1, f.pagesStored + 1))
  {
    VisitPage(s, universe, f, url, newInternal, newQueue);
    InvIntro(s, universe, newQueue, f.visited + {url}, newInternal, newDocs, f.pagesCrawled + 1, f.pagesStored + 1);
  }

  /** What holds when the loop ends, by an empty queue or by the cap. */
  lemma InvDone(s: Setting, universe: set<string>, f: Frontier)
    requires Inv(s, universe, f)
    requires f.queue == [] || CapReached(s.maxPages, f.pagesCrawled)
    ensures f.internalLinks <= f.visited || CapReached(s.maxPages, f.pagesCrawled)
    ensures SeedOf(s.seed) <= f.visited || CapReached(s.maxPages, f.pagesCrawled)
  {
  }

  /** Lines 145-186 for an unvisited head `url`: it is taken off the queue, marked visited
      and counted; a failed fetch changes nothing more, a fetched page is processed. */
  method Visit(seed: Option<string>, isInternal: string -> bool, baseDomain: string, maxPages: Option<int>,
               fetch: string -> Fetched, clock: nat -> string,
               ghost linksOf: string -> set<string>, ghost universe: set<string>, ghost order: seq<string>,
               url: string, queue: seq<Option<string>>, visited: set<string>, internalLinks: set<string>,
               docs: seq<Document>, pagesCrawled: nat, pagesStored: nat)
    returns (newQueue: seq<Option<string>>, newVisited: set<string>, newInternal: set<string>,
             newDocs: seq<Document>, newCrawled: nat, newStored: nat)
    requires LinksFromPages(fetch, linksOf)
    requires Closed(universe, linksOf, isInternal)
    requires Inv(Setting(seed, isInternal, baseDomain, maxPages, fetch, clock, linksOf), universe,
                 Frontier(queue, visited, internalLinks, docs, pagesCrawled, pagesStored))
    requires !CapReached(maxPages, pagesCrawled)
    requires queue != [] && queue[0] == Some(url) && url != "" && url !in visited
    requires CrawlOrder(order, visited, seed, linksOf, isInternal) && DocUrls(docs) == PageOrder(order, fetch)
    requires InFinderOrder(order, linksOf, isInternal) && QueueInFinderOrder(order, queue, linksOf, isInternal)
    ensures newVisited == visited + {url} && newCrawled == pagesCrawled + 1
    ensures |universe - newVisited| < |universe - visited|
    ensures !fetch(url).Page? ==> newQueue == queue[1..] && newInternal == internalLinks && newDocs == docs && newStored == pagesStored
    ensures fetch(url).Page? ==>
              newInternal == internalLinks + Filter(PageLinks(fetch(url).elements, url), isInternal)
              && Extends(queue[1..], newQueue, Filter(PageLinks(fetch(url).elements, url), isInternal), newVisited)
              && (forall l :: l in Filter(PageLinks(fetch(url).elements, url), isInternal) && l !in newVisited ==> Some(l) in newQueue)
              && newDocs == docs + [MakeDocument(url, fetch(url).text, clock(|docs|), baseDomain)]
              && newStored == pagesStored + 1
    ensures CrawlOrder(order + [url], newVisited, seed, linksOf, isInternal) && DocUrls(newDocs) == PageOrder(order + [url], fetch)
    ensures InFinderOrder(order + [url], linksOf, isInternal) && QueueInFinderOrder(order + [url], newQueue, linksOf, isInternal)
    ensures Inv(Setting(seed, isInternal, baseDomain, maxPages, fetch, clock, linksOf), universe,
                Frontier(newQueue, newVisited, newInternal, newDocs, newCrawled, newStored))
  {
    ghost var s := Setting(seed, isInternal, baseDomain, maxPages, fetch, clock, linksOf);
    ghost var f := Frontier(queue, visited, internalLinks, docs, pagesCrawled, pagesStored);
    VisitHead(s, universe, f, url);
    HeadOk(queue, visited, internalLinks, seed, universe, url);
    newQueue := queue[1..];
    newVisited := visited + {url};
    newCrawled := pagesCrawled + 1;
    match fetch(url)
    case RequestFailed =>
      NoLinksWhenFailed(fetch, s.linksOf, url);
      InvFailed(s, universe, f, url);
      newInternal, newDocs, newStored := internalLinks, docs, pagesStored;
      CrawlStep(order, visited, seed, linksOf, isInternal, internalLinks, url);
      DocsStep(docs, newDocs, order, fetch, clock, baseDomain, url);
      TailExtends(queue, Filter(linksOf(url), isInternal), newVisited);
      BreadthFirstStep(order, visited, internalLinks, seed, universe, queue, newQueue, url, linksOf, isInternal);
    case ProcessingFailed =>
      NoLinksWhenFailed(fetch, s.linksOf, url);
      InvFailed(s, universe, f, url);
      newInternal, newDocs, newStored := internalLinks, docs, pagesStored;
      CrawlStep(order, visited, seed, linksOf, isInternal, internalLinks, url);
      DocsStep(docs, newDocs, order, fetch, clock, baseDomain, url);
      TailExtends(queue, Filter(linksOf(url), isInternal), newVisited);
      BreadthFirstStep(order, visited, internalLinks, seed, universe, queue, newQueue, url, linksOf, isInternal);
    case Page(elements, text) =>
      newInternal, newQueue, newDocs, newStored :=
        ProcessPage(s, universe, f, url, elements, text, isInternal, clock, baseDomain,
                    internalLinks, newVisited, newQueue, docs, pagesStored);
      CrawlStep(order, visited, seed, linksOf, isInternal, internalLinks, url);
      DocsStep(docs, newDocs, order, fetch, clock, baseDomain, url);
      LinksWhenPage(fetch, linksOf, url);
      BreadthFirstStep(order, visited, internalLinks, seed, universe, queue, newQueue, url, linksOf, isInternal);
  }

  /** Lines 153-178, for the fetched page at the head `url`: its links are extracted, the
      internal ones recorded and queued, and its document stored. */
  method ProcessPage(ghost s: Setting, ghost universe: set<string>, ghost f: Frontier, url: string,
                     elements: seq<Element>, text: string,
                     isInternal: string -> bool, clock: nat -> string, baseDomain: string,
                     internalLinks: set<string>, visited: set<string>, queue: seq<Option<string>>,
                     docs: seq<Document>, pagesStored: nat)
    returns (newInternal: set<string>, newQueue: seq<Option<string>>, newDocs: seq<Document>, newStored: nat)
    requires s.isInternal == isInternal && s.clock == clock && s.baseDomain == baseDomain
    requires LinksFromPages(s.fetch, s.linksOf)
    requires Closed(universe, s.linksOf, s.isInternal)
    requires Inv(s, universe, f) && !CapReached(s.maxPages, f.pagesCrawled)
    requires f.queue != [] && f.queue[0] == Some(url) && url != "" && url !in f.visited
    requires s.fetch(url) == Page(elements, text)
    requires internalLinks == f.internalLinks && visited == f.visited + {url} && queue == f.queue[1..]
    requires docs == f.docs && pagesStored == f.pagesStored
    ensures newInternal == internalLinks + Filter(PageLinks(elements, url), isInternal)
    ensures Extends(queue, newQueue, Filter(PageLinks(elements, url), isInternal), visited)
    ensures NoDuplicates(queue) ==> NoDuplicates(newQueue)
    ensures forall l :: l in Filter(PageLinks(elements, url), isInternal) && l !in visited ==> Some(l) in newQueue
    ensures newDocs == docs + [MakeDocument(url, text, clock(|docs|), baseDomain)] && newStored == pagesStored + 1
    ensures Inv(s, universe, Frontier(newQueue, visited, newInternal, newDocs, f.pagesCrawled + 1, newStored))
  {
    var found := ExtractLinks(elements, url);
    LinksWhenPage(s.fetch, s.linksOf, url);
    NoEmptyLink(elements, url);
    newInternal, newQueue := EnqueueLinks(found, isInternal, internalLinks, visited, queue);
    newDocs := docs + [MakeDocument(url, text, clock(|docs|), baseDomain)];
    newStored := pagesStored + 1;
    InvPage(s, universe, f, url, newInternal, newQueue, newDocs);
  }

  /** `scrape_and_store_locally` (lines 119-189) without the printing and the file output.
      The source returns the internal links and the number of stored pages and writes the
      documents to a file; the model returns the documents too, with the visited set and
      the crawl counter. The ghost `universe` bounds the URLs the crawl can reach, which
      is what makes it terminate. */
  method ScrapeAndStore(startUrl: string, baseDomain: string, maxPages: Option<int>,
                        fetch: string -> Fetched, clock: nat -> string, ghost universe: set<string>)
    returns (internalLinks: set<string>, pagesStored: nat, docs: seq<Document>,
             visited: set<string>, pagesCrawled: nat, ghost order: seq<string>)
    requires SeedSet(startUrl) <= universe
    requires Closed(universe, LinksOfPages(fetch), InternalTest(BaseNetloc(baseDomain)))
    ensures pagesCrawled == |visited|
    ensures pagesStored == |docs| <= pagesCrawled
    ensures CapActive(maxPages) ==> pagesCrawled <= (if maxPages.value < 0 then 0 else maxPages.value)
    ensures internalLinks == Found(visited, LinksOfPages(fetch), InternalTest(BaseNetloc(baseDomain)))
    ensures visited <= internalLinks + SeedSet(startUrl)
    ensures DocsOk(docs, visited, fetch, clock, baseDomain)
    ensures internalLinks <= visited || CapReached(maxPages, pagesCrawled)
    ensures SeedSet(startUrl) <= visited || CapReached(maxPages, pagesCrawled)
    ensures CrawlOrder(order, visited, NormalizeUrl(startUrl, ""), LinksOfPages(fetch), InternalTest(BaseNetloc(baseDomain)))
    ensures InFinderOrder(order, LinksOfPages(fetch), InternalTest(BaseNetloc(baseDomain)))
    ensures NoneSkipped(order, visited, LinksOfPages(fetch), InternalTest(BaseNetloc(baseDomain)))
    ensures DocUrls(docs) == PageOrder(order, fetch)
  {
    var seed := NormalizeUrl(startUrl, "");
    var baseNetloc := BaseNetloc(baseDomain);
    assert SeedOf(seed) == SeedSet(startUrl);
    PagesGiveLinks(fetch);
    internalLinks, pagesStored, docs, visited, pagesCrawled, order :=
      CrawlFrom(seed, InternalTest(baseNetloc), baseDomain, maxPages, fetch, clock, LinksOfPages(fetch), universe);
  }

  /** One pass of the loop body below the cap check (lines 145-189): a head that is `None`,
      empty or already visited is dropped, any other head is visited. Either the unvisited part
      of the universe shrinks, or nothing is visited and the queue gets shorter. */
  method Step(seed: Option<string>, isInternal: string -> bool, baseDomain: string, maxPages: Option<int>,
              fetch: string -> Fetched, clock: nat -> string,
              ghost linksOf: string -> set<string>, ghost universe: set<string>, ghost order: seq<string>,
              queue: seq<Option<string>>, visited: set<string>, internalLinks: set<string>,
              docs: seq<Document>, pagesCrawled: nat, pagesStored: nat)
    returns (newQueue: seq<Option<string>>, newVisited: set<string>, newInternal: set<string>,
             newDocs: seq<Document>, newCrawled: nat, newStored: nat, ghost newOrder: seq<string>)
    requires LinksFromPages(fetch, linksOf)
    requires Closed(universe, linksOf, isInternal)
    requires Inv(Setting(seed, isInternal, baseDomain, maxPages, fetch, clock, linksOf), universe,
                 Frontier(queue, visited, internalLinks, docs, pagesCrawled, pagesStored))
    requires !CapReached(maxPages, pagesCrawled) && queue != []
    requires CrawlOrder(order, visited, seed, linksOf, isInternal) && DocUrls(docs) == PageOrder(order, fetch)
    requires InFinderOrder(order, linksOf, isInternal) && QueueInFinderOrder(order, queue, linksOf, isInternal)
    ensures |universe - newVisited| < |universe - visited| || (newVisited == visited && |newQueue| < |queue|)
    ensures Inv(Setting(seed, isInternal, baseDomain, maxPages, fetch, clock, linksOf), universe,
                Frontier(newQueue, newVisited, newInternal, newDocs, newCrawled, newStored))
    ensures CrawlOrder(newOrder, newVisited, seed, linksOf, isInternal) && DocUrls(newDocs) == PageOrder(newOrder, fetch)
    ensures InFinderOrder(newOrder, linksOf, isInternal) && QueueInFinderOrder(newOrder, newQueue, linksOf, isInternal)
  {
    var current := queue[0];
    if current.None? || current.value == "" || current.value in visited {
      InvSkip(Setting(seed, isInternal, baseDomain, maxPages, fetch, clock, linksOf), universe,
              Frontier(queue, visited, internalLinks, docs, pagesCrawled, pagesStored));
      QueueTail(order, queue, linksOf, isInternal);
      newQueue, newVisited, newInternal, newDocs, newCrawled, newStored, newOrder :=
        queue[1..], visited, internalLinks, docs, pagesCrawled, pagesStored, order;
    } else {
      newQueue, newVisited, newInternal, newDocs, newCrawled, newStored :=
        Visit(seed, isInternal, baseDomain, maxPages, fetch, clock, linksOf, universe, order, current.value,
              queue, visited, internalLinks, docs, pagesCrawled, pagesStored);
      newOrder := order + [current.value];
    }
  }

  /** The crawl from the normalised seed (lines 124-189): the initial state of lines 124-136,
      then the `while queue` loop, keeping the links that `isInternal` accepts. */
  method CrawlFrom(seed: Option<string>, isInternal: string -> bool, baseDomain: string, maxPages: Option<int>,
                   fetch: string -> Fetched, clock: nat -> string,
                   ghost linksOf: string -> set<string>, ghost universe: set<string>)
    returns (internalLinks: set<string>, pagesStored: nat, docs: seq<Document>,
             visited: set<string>, pagesCrawled: nat, ghost order: seq<string>)
    requires seed.Some? ==> seed.value != ""
    requires SeedOf(seed) <= universe
    requires LinksFromPages(fetch, linksOf)
    requires Closed(universe, linksOf, isInternal)
    ensures pagesCrawled == |visited|
    ensures pagesStored == |docs| <= pagesCrawled
    ensures CapActive(maxPages) ==> pagesCrawled <= (if maxPages.value < 0 then 0 else maxPages.value)
    ensures internalLinks == Found(visited, linksOf, isInternal)
    ensures visited <= internalLinks + SeedOf(seed)
    ensures DocsOk(docs, visited, fetch, clock, baseDomain)
    ensures internalLinks <= visited || CapReached(maxPages, pagesCrawled)
    ensures SeedOf(seed) <= visited || CapReached(maxPages, pagesCrawled)
    ensures CrawlOrder(order, visited, seed, linksOf, isInternal)
    ensures InFinderOrder(order, linksOf, isInternal) && NoneSkipped(order, visited, linksOf, isInternal)
    ensures DocUrls(docs) == PageOrder(order, fetch)
  {
    ghost var s := Setting(seed, isInternal, baseDomain, maxPages, fetch, clock, linksOf);
    InvInit(s, universe);
    var queue;
    queue, visited, internalLinks, docs, pagesCrawled, pagesStored, order :=
      CrawlLoop(seed, isInternal, baseDomain, maxPages, fetch, clock, linksOf, universe, [],
                [seed], {}, {}, [], 0, 0);
    InvDone(s, universe, Frontier(queue, visited, internalLinks, docs, pagesCrawled, pagesStored));
    NoneSkippedNow(order, visited, internalLinks, queue, seed, linksOf, isInternal);
  }

  /** The loop itself: it runs until the queue is empty or the cap is reached, keeping the
      invariant, the visit order, the document order and first-finder order. */
  method CrawlLoop(seed: Option<string>, isInternal: string -> bool, baseDomain: string, maxPages: Option<int>,
                   fetch: string -> Fetched, clock: nat -> string,
                   ghost linksOf: string -> set<string>, ghost universe: set<string>, ghost order0: seq<string>,
                   queue0: seq<Option<string>>, visited0: set<string>, internal0: set<string>,
                   docs0: seq<Document>, crawled0: nat, stored0: nat)
    returns (queue: seq<Option<string>>, visited: set<string>, internalLinks: set<string>,
             docs: seq<Document>, pagesCrawled: nat, pagesStored: nat, ghost order: seq<string>)
    requires LinksFromPages(fetch, linksOf)
    requires Closed(universe, linksOf, isInternal)
    requires Inv(Setting(seed, isInternal, baseDomain, maxPages, fetch, clock, linksOf), universe,
                 Frontier(queue0, visited0, internal0, docs0, crawled0, stored0))
    requires CrawlOrder(order0, visited0, seed, linksOf, isInternal) && DocUrls(docs0) == PageOrder(order0, fetch)
    requires InFinderOrder(order0, linksOf, isInternal) && QueueInFinderOrder(order0, queue0, linksOf, isInternal)
    ensures queue == [] || CapReached(maxPages, pagesCrawled)
    ensures Inv(Setting(seed, isInternal, baseDomain, maxPages, fetch, clock, linksOf), universe,
                Frontier(queue, visited, internalLinks, docs, pagesCrawled, pagesStored))
    ensures CrawlOrder(order, visited, seed, linksOf, isInternal) && DocUrls(docs) == PageOrder(order, fetch)
    ensures InFinderOrder(order, linksOf, isInternal) && QueueInFinderOrder(order, queue, linksOf, isInternal)
  {
    queue, visited, internalLinks, docs, pagesCrawled, pagesStored, order :=
      queue0, visited0, internal0, docs0, crawled0, stored0, order0;
    while queue != []
      invariant Inv(Setting(seed, isInternal, baseDomain, maxPages, fetch, clock, linksOf), universe,
                    Frontier(queue, visited, internalLinks, docs, pagesCrawled, pagesStored))
      invariant CrawlOrder(order, visited, seed, linksOf, isInternal) && DocUrls(docs) == PageOrder(order, fetch)
      invariant InFinderOrder(order, linksOf, isInternal) && QueueInFinderOrder(order, queue, linksOf, isInternal)
      decreases |universe - visited|, |queue|
    {
      if maxPages.Some? && maxPages.value != 0 && pagesCrawled >= maxPages.value {
        break;
      }
      queue, visited, internalLinks, docs, pagesCrawled, pagesStored, order :=
        Step(seed, isInternal, baseDomain, maxPages, fetch, clock, linksOf, universe, order,
             queue, visited, internalLinks, docs, pagesCrawled, pagesStored);
    }
  }
}
