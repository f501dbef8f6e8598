/** `extract_links_from_soup` (internal_links.py lines 50-100): the absolute, normalised URLs a
    parsed page links to through `a`, `area` and `link` elements (their `href`) and `iframe`
    and `frame` elements (their `src`). `img` elements are looked at and discarded. */
module Links {
  import opened Wrappers
  import opened Strings
  import opened UrlParse
  import opened Normalize

  /** An element of the parsed page, as the extractor queries it: its tag name and its `href`
      and `src` attributes when present. */
  datatype Element = Element(tag: string, href: Option<string>, src: Option<string>)

  datatype Attr = Href | Src

  predicate Has(e: Element, attr: Attr)
  {
    match attr
    case Href => e.href.Some?
    case Src => e.src.Some?
  }

  /** `soup.find_all(tag, attr=True)`: the elements with that tag name carrying that attribute,
      in document order. */
  function FindAll(elems: seq<Element>, tag: string, attr: Attr): (r: seq<Element>)
    ensures |r| <= |elems|
    ensures forall e :: e in r <==> e in elems && e.tag == tag && Has(e, attr)
  {
    if elems == [] then []
    else
      var rest := FindAll(elems[1..], tag, attr);
      assert forall e :: e in elems <==> e == elems[0] || e in elems[1..];
      if elems[0].tag == tag && Has(elems[0], attr) then [elems[0]] + rest else rest
  }

  /** `find_all` distributes over a page split in two. */
  lemma {:induction false} FindAllAppend(xs: seq<Element>, ys: seq<Element>, tag: string, attr: Attr)
    ensures FindAll(xs + ys, tag, attr) == FindAll(xs, tag, attr) + FindAll(ys, tag, attr)
  {
    if xs == [] {
      assert xs + ys == ys;
    } else {
      assert (xs + ys)[1..] == xs[1..] + ys;
      FindAllAppend(xs[1..], ys, tag, attr);
    }
  }

  /** The first element `find_all` returns is the first matching element of the page. */
  lemma {:induction false} FindAllFirst(elems: seq<Element>, tag: string, attr: Attr)
    requires FindAll(elems, tag, attr) != []
    ensures exists i :: 0 <= i < |elems| && elems[i] == FindAll(elems, tag, attr)[0]
                        && forall j :: 0 <= j < i ==> !(elems[j].tag == tag && Has(elems[j], attr))
  {
    if !(elems[0].tag == tag && Has(elems[0], attr)) {
      FindAllFirst(elems[1..], tag, attr);
      var i :| 0 <= i < |elems[1..]| && elems[1..][i] == FindAll(elems[1..], tag, attr)[0]
                && forall j :: 0 <= j < i ==> !(elems[1..][j].tag == tag && Has(elems[1..][j], attr));
      assert elems[i + 1] == FindAll(elems, tag, attr)[0];
      forall j | 0 <= j < i + 1 ensures !(elems[j].tag == tag && Has(elems[j], attr)) {
        if j > 0 { assert elems[j] == elems[1..][j - 1]; }
      }
    }
  }

  /** `soup.find('base', href=True)`: the first `base` element with an `href`. */
  function FirstBase(elems: seq<Element>): (r: Option<Element>)
    ensures r.Some? ==> r.value in elems && r.value.tag == "base" && r.value.href.Some?
    ensures r.Some? ==> exists i :: 0 <= i < |elems| && elems[i] == r.value
                                    && forall j :: 0 <= j < i ==> !(elems[j].tag == "base" && elems[j].href.Some?)
    ensures r.None? <==> FindAll(elems, "base", Href) == []
  {
    var bases := FindAll(elems, "base", Href);
    if bases == [] then None else FindAllFirst(elems, "base", Href); Some(bases[0])
  }

  /** Line 59: the base every relative link is resolved against, the `base` element's `href`
      when there is one and the page's own URL otherwise. */
  function BaseForJoin(elems: seq<Element>, currentUrl: string): (r: string)
    ensures FirstBase(elems).None? ==> r == currentUrl
    ensures FirstBase(elems).Some? ==> r == FirstBase(elems).value.href.value
  {
    match FirstBase(elems)
    case None => currentUrl
    case Some(b) => b.href.value
  }

  /** Lines 62-67: the link-bearing elements, all `a`, then all `area`, then all `link` with an
      `href`, then all `iframe`, then all `frame` with a `src`. */
  function Candidates(elems: seq<Element>): seq<Element>
  {
    FindAll(elems, "a", Href) + FindAll(elems, "area", Href) + FindAll(elems, "link", Href)
    + FindAll(elems, "iframe", Src) + FindAll(elems, "frame", Src)
  }

  /** Line 74, `tag.get('href') or tag.get('src')`: the `href` unless missing or empty, else the
      `src`; "" stands for both a missing and an empty value, which line 75 skips alike. */
  function RawOf(e: Element): (raw: string)
    ensures e.href.Some? && e.href.value != "" ==> raw == e.href.value
    ensures (e.href.None? || e.href.value == "") ==> raw == (if e.src.Some? then e.src.value else "")
  {
    if e.href.Some? && e.href.value != "" then e.href.value
    else if e.src.Some? then e.src.value
    else ""
  }

  /** Line 79: the raw link names a scheme in `IGNORED_SCHEMES`. */
  predicate HasIgnoredScheme(raw: string)
  {
    var scheme := Parse(raw, "").scheme;
    scheme != "" && IgnoredScheme(Lower(scheme))
  }

  /** Lines 74-84 for one candidate: the URL it adds to the link set, if any. */
  function Contribution(e: Element, base: string): (r: Option<string>)
    ensures r.Some? ==> RawOf(e) != "" && r == NormalizeUrl(RawOf(e), base)
    ensures r.Some? ==> '#' !in r.value && (StartsWith(r.value, "http://") || StartsWith(r.value, "https://"))
    ensures RawOf(e) != "" && !HasIgnoredScheme(RawOf(e)) && NormalizeUrl(RawOf(e), base).Some? ==> r.Some?
  {
    var raw := RawOf(e);
    if raw == "" || HasIgnoredScheme(raw) then None
    else NormalizeUrl(raw, base)
  }

  function Contributed(e: Element, base: string): set<string>
  {
    OptionSet(Contribution(e, base))
  }

  function OptionSet(o: Option<string>): set<string>
  {
    match o
    case None => {}
    case Some(u) => {u}
  }

  /** The links a contribution function collects from the candidates `cs`, in order. */
  function Gather(cs: seq<Element>, contrib: Element -> Option<string>): set<string>
  {
    if cs == [] then {} else Gather(cs[..|cs| - 1], contrib) + OptionSet(contrib(cs[|cs| - 1]))
  }

  lemma {:induction false} GatherMembership(cs: seq<Element>, contrib: Element -> Option<string>, x: string)
    ensures x in Gather(cs, contrib) <==> exists k :: 0 <= k < |cs| && contrib(cs[k]) == Some(x)
  {
    if cs != [] {
      var init := cs[..|cs| - 1];
      GatherMembership(init, contrib, x);
      if x in Gather(init, contrib) {
        var k :| 0 <= k < |init| && contrib(init[k]) == Some(x);
        assert cs[k] == init[k];
      }
      if exists k :: 0 <= k < |cs| && contrib(cs[k]) == Some(x) {
        var k :| 0 <= k < |cs| && contrib(cs[k]) == Some(x);
        if k < |cs| - 1 {
          assert init[k] == cs[k];
        }
      }
    }
  }

  function ContributionAgainst(base: string): Element -> Option<string>
  {
    e => Contribution(e, base)
  }

  /** The links the candidates `cs` contribute against `base`, accumulated in order. */
  function LinksOf(cs: seq<Element>, base: string): set<string>
  {
    Gather(cs, ContributionAgainst(base))
  }

  lemma LinksOfStep(cs: seq<Element>, i: nat, base: string)
    requires i < |cs|
    ensures LinksOf(cs[..i + 1], base) == LinksOf(cs[..i], base) + Contributed(cs[i], base)
  {
    assert cs[..i + 1][..i] == cs[..i];
  }

  /** What `extract_links_from_soup(soup, current_url)` returns. */
  function PageLinks(elems: seq<Element>, currentUrl: string): set<string>
  {
    LinksOf(Candidates(elems), BaseForJoin(elems, currentUrl))
  }

  /** Lines 74-84, the body of the first loop: skip a candidate without a link or with an
      ignored scheme, otherwise add its normalised URL when there is one. */
  method AddCandidate(links: set<string>, tag: Element, base: string) returns (r: set<string>)
    ensures r == links + Contributed(tag, base)
  {
    var raw := RawOf(tag);
    if raw == "" {
      UnlinkedContributesNothing(links, tag, base);
      return links;
    }
    var parsed := Parse(raw, "");
    if parsed.scheme != "" && IgnoredScheme(Lower(parsed.scheme)) {
      IgnoredContributesNothing(links, tag, base);
      return links;
    }
    r := AddNormalized(links, tag, base, raw);
  }

  /** Lines 81-84: normalise a kept candidate's link and add it when normalisation succeeds. */
  method AddNormalized(links: set<string>, tag: Element, base: string, raw: string) returns (r: set<string>)
    requires raw == RawOf(tag) && raw != "" && !HasIgnoredScheme(raw)
    ensures r == links + Contributed(tag, base)
  {
    var normalized := NormalizeUrl(raw, base);
    KeptContribution(links, tag, base);
    if normalized.Some? {
      r := links + {normalized.value};
    } else {
      r := links;
    }
  }

  lemma UnlinkedContributesNothing(links: set<string>, e: Element, base: string)
    requires RawOf(e) == ""
    ensures links + Contributed(e, base) == links
  {
    assert Contribution(e, base) == None;
    AddOption(links, None);
  }

  lemma IgnoredContributesNothing(links: set<string>, e: Element, base: string)
    requires HasIgnoredScheme(RawOf(e))
    ensures links + Contributed(e, base) == links
  {
    assert Contribution(e, base) == None;
    AddOption(links, None);
  }

  lemma KeptContribution(links: set<string>, e: Element, base: string)
    requires RawOf(e) != "" && !HasIgnoredScheme(RawOf(e))
    ensures NormalizeUrl(RawOf(e), base).Some? ==> links + Contributed(e, base) == links + {NormalizeUrl(RawOf(e), base).value}
    ensures NormalizeUrl(RawOf(e), base).None? ==> links + Contributed(e, base) == links
  {
    KeptIsNormalized(e, base);
    AddOption(links, NormalizeUrl(RawOf(e), base));
  }

  /** A candidate with a link and no ignored scheme contributes its normalised link. */
  lemma KeptIsNormalized(e: Element, base: string)
    requires RawOf(e) != "" && !HasIgnoredScheme(RawOf(e))
    ensures Contributed(e, base) == OptionSet(NormalizeUrl(RawOf(e), base))
  {
  }

  lemma AddOption(xs: set<string>, o: Option<string>)
    ensures o.Some? ==> xs + OptionSet(o) == xs + {o.value}
    ensures o.None? ==> xs + OptionSet(o) == xs
  {
    if o.None? {
      assert xs + {} == xs;
    }
  }

  /** Lines 50-100: collect the candidates' links against the page's base, then go through
      the images, whose normalised sources are discarded. */
  method ExtractLinks(elems: seq<Element>, currentUrl: string) returns (links: set<string>)
    ensures links == PageLinks(elems, currentUrl)
  {
    var base := BaseForJoin(elems, currentUrl);
    var candidates := Candidates(elems);
    var images := FindAll(elems, "img", Src);
    links := CollectLinks(candidates, base);
    VisitImages(images, base);
  }

  /** Lines 73-84: the first loop adds each candidate's contribution, in order. */
  method CollectLinks(candidates: seq<Element>, base: string) returns (links: set<string>)
    ensures links == LinksOf(candidates, base)
  {
    links := {};
    var i := 0;
    while i < |candidates|
      invariant 0 <= i <= |candidates|
      invariant links == LinksOf(candidates[..i], base)
    {
      links := AddCandidate(links, candidates[i], base);
      LinksOfStep(candidates, i, base);
      i := i + 1;
    }
    assert candidates[..i] == candidates;
  }

  /** Lines 87-98: each image with a source is normalised and the result dropped. */
  method VisitImages(images: seq<Element>, base: string)
  {
    var j := 0;
    while j < |images|
      invariant 0 <= j <= |images|
    {
      var src := images[j].src;
      j := j + 1;
      if src.None? || src.value == "" {
        continue;
      }
      var normalized := NormalizeUrl(src.value, base);
    }
  }

  /** A URL is in the link set exactly when some candidate contributes it. */
  lemma LinksOfMembership(cs: seq<Element>, base: string, x: string)
    ensures x in LinksOf(cs, base) <==> exists k :: 0 <= k < |cs| && Contribution(cs[k], base) == Some(x)
  {
    var contrib := ContributionAgainst(base);
    GatherMembership(cs, contrib, x);
    if x in LinksOf(cs, base) {
      var k :| 0 <= k < |cs| && contrib(cs[k]) == Some(x);
      assert Contribution(cs[k], base) == Some(x);
    }
    if exists k :: 0 <= k < |cs| && Contribution(cs[k], base) == Some(x) {
      var k :| 0 <= k < |cs| && Contribution(cs[k], base) == Some(x);
      assert contrib(cs[k]) == Some(x);
    }
  }

  /** Every extracted link is an absolute http(s) URL without a fragment, and is the
      normalisation, against the page's base, of some candidate's raw link. */
  lemma PageLinksAreNormalized(elems: seq<Element>, currentUrl: string, x: string)
    requires x in PageLinks(elems, currentUrl)
    ensures StartsWith(x, "http://") || StartsWith(x, "https://")
    ensures '#' !in x
    ensures exists e :: e in Candidates(elems) && RawOf(e) != ""
                        && NormalizeUrl(RawOf(e), BaseForJoin(elems, currentUrl)) == Some(x)
  {
    var cs := Candidates(elems);
    var base := BaseForJoin(elems, currentUrl);
    LinksOfMembership(cs, base, x);
    var k :| 0 <= k < |cs| && Contribution(cs[k], base) == Some(x);
    assert cs[k] in cs;
  }

  /** The ignored-scheme check of line 79 never changes the outcome: `normalize_url` rejects
      those links by itself, whatever the base. */
  lemma IgnoredCheckRedundant(e: Element, base: string)
    ensures Contribution(e, base) == (if RawOf(e) == "" then None else NormalizeUrl(RawOf(e), base))
  {
    var raw := RawOf(e);
    if raw != "" && HasIgnoredScheme(raw) {
      IgnoredSchemeNeverNormalizes(raw, base);
    }
  }

  lemma FindAllSkips(xs: seq<Element>, ys: seq<Element>, e: Element, tag: string, attr: Attr)
    requires e.tag != tag
    ensures FindAll(xs + [e] + ys, tag, attr) == FindAll(xs + ys, tag, attr)
  {
    assert xs + [e] + ys == xs + ([e] + ys);
    FindAllAppend(xs, [e] + ys, tag, attr);
    assert ([e] + ys)[1..] == ys;
    assert FindAll([e] + ys, tag, attr) == FindAll(ys, tag, attr);
    FindAllAppend(xs, ys, tag, attr);
  }

  /** `find_all` of a tag no element has finds nothing. */
  lemma {:induction false} FindAllNone(elems: seq<Element>, tag: string, attr: Attr)
    requires forall k :: 0 <= k < |elems| ==> elems[k].tag != tag
    ensures FindAll(elems, tag, attr) == []
  {
    if elems != [] {
      FindAllNone(elems[1..], tag, attr);
    }
  }

  /** An element whose tag the extractor does not query changes nothing about the links
      extracted, wherever it sits in the page. */
  lemma UnqueriedElementIgnored(xs: seq<Element>, ys: seq<Element>, e: Element, currentUrl: string)
    requires e.tag !in {"a", "area", "link", "iframe", "frame", "base"}
    ensures PageLinks(xs + [e] + ys, currentUrl) == PageLinks(xs + ys, currentUrl)
  {
    FindAllSkips(xs, ys, e, "a", Href);
    FindAllSkips(xs, ys, e, "area", Href);
    FindAllSkips(xs, ys, e, "link", Href);
    FindAllSkips(xs, ys, e, "iframe", Src);
    FindAllSkips(xs, ys, e, "frame", Src);
    FindAllSkips(xs, ys, e, "base", Href);
    assert Candidates(xs + [e] + ys) == Candidates(xs + ys);
    assert FirstBase(xs + [e] + ys) == FirstBase(xs + ys);
  }

  /** Images never contribute a link (line 86-98): adding an `img` element anywhere leaves the
      extracted links unchanged. */
  lemma ImageIgnored(xs: seq<Element>, ys: seq<Element>, img: Element, currentUrl: string)
    requires img.tag == "img"
    ensures PageLinks(xs + [img] + ys, currentUrl) == PageLinks(xs + ys, currentUrl)
  {
    UnqueriedElementIgnored(xs, ys, img, currentUrl);
  }

  /** A page whose only elements are images has no links. */
  lemma ImageOnlyPageHasNoLinks(elems: seq<Element>, currentUrl: string)
    requires forall k :: 0 <= k < |elems| ==> elems[k].tag == "img"
    ensures PageLinks(elems, currentUrl) == {}
  {
    FindAllNone(elems, "a", Href);
    FindAllNone(elems, "area", Href);
    FindAllNone(elems, "link", Href);
    FindAllNone(elems, "iframe", Src);
    FindAllNone(elems, "frame", Src);
    assert Candidates(elems) == [];
  }
}
