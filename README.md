# Crawl engine of `internal_links.py`, modelled in Dafny

This project models the crawl engine of `assignments/Project/internal_links.py` and proves
properties of it. The engine has four parts:

- **`normalize_url`** (lines 12-48). It turns a link into the canonical string the crawler
  compares, stores and queues. It resolves the link against a base, drops the fragment and
  rejects every scheme other than http and https. It defaults the scheme to https, lower-cases
  the netloc and drops the default port. An empty path becomes "/" and any other path loses
  its trailing '/'. Parameters are dropped. `IGNORED_SCHEMES` (line 10) is the scheme list
  the link extractor skips.
- **`extract_links_from_soup`** (lines 50-100). It gives the set of normalised links of a
  page. The links come from `a`, `area` and `link` elements (`href`) and from `iframe` and
  `frame` elements (`src`), resolved against the page's `<base href>` or its own URL.
  `img` sources are normalised and discarded.
- **The whitespace clean-up** of `get_visible_text_without_mutation` (lines 115-117). The text
  is split into lines and each line is stripped. Each line is split on double spaces and each
  piece is stripped. The non-empty pieces are joined with single spaces.
- **The breadth-first loop** of `scrape_and_store_locally` (lines 119-189). It works over a
  FIFO queue, a visited set, the set of internal links, the stored documents and two
  counters.

The files are:

- `wrappers.dfy`: `Option`.
- `strings.dfy`: the string operations the engine uses.
- `urlparse.dfy`: `urlparse`, `urlunparse`, `urldefrag` and `urljoin` of CPython's
  `urllib.parse`, at the level of detail the engine depends on.
- `normalize.dfy`: `normalize_url`.
- `normalize_examples.dfy`: concrete URLs (default ports, the root path, a trailing slash, a
  fragment, a `mailto` link) and the three kinds of URL on which `normalize_url` is not
  idempotent.
- `links.dfy`: the link extractor.
- `visible_text.dfy`: the clean-up.
- `crawl.dfy`: the crawl loop.

The two loops of the extractor and the crawl loop are methods with `while` loops. The crawl
loop (`CrawlLoop`) is split into one pass of its body (`Step`), one visit of an unvisited
queue head (`Visit`) and the handling of a fetched page (`ProcessPage`). Each method is proved against functions of the inputs. The crawl's invariant
`Crawl.Inv` says the following:

- the queue has no duplicates and holds no visited URL;
- `pages_crawled == |visited|`, and it stays within the page cap;
- `internal_links` is exactly the same-netloc links found on the visited pages;
- there is one document per visited URL whose fetch gave a page, each built from that page's
  cleaned text.

Beside the invariant, the crawl keeps a ghost record of the visit order, `Crawl.CrawlOrder`.
The first visited URL is the seed, and every later one is an internal link found on the page
of an earlier one. So every visited URL is reachable from the seed. The stored documents
follow that order: their URLs are the visited URLs whose fetch gave a page, in visit order
(`Crawl.PageOrder`).

The crawl is breadth-first. For each visited URL after the seed, `Crawl.FirstFinder` gives
the position in the visit order of the first page on which it was found. These positions
never decrease along the visit order (`Crawl.InFinderOrder`). No link found on a visited page
is left unvisited while a URL first found on a later page was visited (`Crawl.NoneSkipped`).
So when the page cap stops the crawl, a page that still has unvisited links comes no earlier
than the page on which any visited URL was first found.
The loop keeps the queue sorted by the same positions (`Crawl.QueueInFinderOrder`).

Fetching a page is the parameter `fetch`, a function from URL to `RequestFailed`,
`ProcessingFailed` or a page. A page is a sequence of elements (tag, `href`, `src`) and an
already extracted text. Each URL is fetched at most once, so a function stands for the
network. The UTC clock is the parameter `clock`, indexed by the number of stored documents.

Normalising a URL twice is expected to give the same string as normalising it once. The code
is not idempotent on three kinds of input, under CPython 3.11's `urllib.parse`. The model follows the code: it proves idempotence
outside those inputs (`Normalize.NormalizeIdempotent`) and shows each of the three as a
concrete lemma:

- **A path made only of '/'.** "http://h//" normalises to "http://h". That string then
  normalises to "http://h/", because line 44 strips the root '/' that line 41 supplies only
  for an empty path.
- **A ';' in the last path segment after the trailing '/' is stripped.** `urlparse` then
  reads that segment's tail as parameters, and line 46 drops them.
- **A path beginning "//" under an empty netloc.** `urlunparse` writes it as an authority.

## Model

| member | source | states |
|---|---|---|
| `Normalize.NormalizeUrl` | assignments/Project/internal_links.py:20-48 | None exactly when the joined, defragmented URL parses with a non-empty scheme other than http or https; otherwise a string without '#' that starts with "http://" or "https://" |
| `Normalize.NormalOf` | assignments/Project/internal_links.py:28-46 | None exactly for a non-empty non-web scheme. Otherwise: the scheme is the parsed one or "https"; the netloc is lower-cased with the default port removed; the path is `NormalPath` of the parsed path; params and fragment are empty; the query is unchanged |
| `Normalize.Prepared` | assignments/Project/internal_links.py:20-24 | the joined URL with its fragment removed contains no '#' |
| `Normalize.StripDefaultPort` | assignments/Project/internal_links.py:36-39 | the netloc is changed exactly when the text after its first ':' is "80" under http or "443" under https; it is then the host before that ':' |
| `Normalize.StripDefaultPortIdempotent` | assignments/Project/internal_links.py:36-39 | removing the default port twice is removing it once |
| `Normalize.NormalPath` | assignments/Project/internal_links.py:41-44 | "" becomes "/"; any other path loses only trailing '/'; the result is "/", "" or ends in another character; it is "" exactly for a path of two or more '/' only |
| `Normalize.NormalPathShape` | assignments/Project/internal_links.py:41-44 | a path that is empty or starts with '/' keeps that shape, and a result starting "//" comes from a path starting "//" |
| `Normalize.NormalOfClean` | assignments/Project/internal_links.py:46 | the normalised components contain no '#' |
| `Normalize.HierOfWebScheme` | assignments/Project/internal_links.py:47 | `urlunparse` of http or https components starts with "http://" or "https://" |
| `Normalize.WellFormedIsParsed` | assignments/Project/internal_links.py:26 | components that `urlunparse` writes and `urlparse` reads back meet what `urlparse` guarantees of its result |
| `Normalize.DefragWritten` | assignments/Project/internal_links.py:24 | removing the fragment of written components gives the components without their fragment, written |
| `Normalize.NormalizeWellFormed` | assignments/Project/internal_links.py:24-46 | normalising a written URL normalises its components without the fragment |
| `Normalize.NormalizeWritten` | assignments/Project/internal_links.py:12-48 | the normalised form of a written web URL, component by component |
| `Normalize.NormalFixpoint` | assignments/Project/internal_links.py:12-48 | components already in normal form are written back unchanged by normalisation |
| `Normalize.LeadingSlash` | assignments/Project/internal_links.py:46-47 | adding the '/' that `urlunparse` puts before a relative path keeps the last segment free of ';' |
| `Normalize.ReparsedWellFormed` | assignments/Project/internal_links.py:46-47 | outside the three non-idempotent kinds of input, the normalised components, as `urlparse` reads them back, are well formed and are written as the same string |
| `Normalize.NormalNetlocSafe` | assignments/Project/internal_links.py:33-39 | the normalised netloc holds no '/', '?', '#', tab or line break |
| `Normalize.NormalPathSafe` | assignments/Project/internal_links.py:41-44 | the normalised path, with the '/' that `urlunparse` adds, holds no '?', '#', tab or line break |
| `Normalize.SlashWritten` | assignments/Project/internal_links.py:47 | a web URL whose path lacks its leading '/' is written as if it had one |
| `Normalize.SlashedPathNormal` | assignments/Project/internal_links.py:41-44 | a normalised path, with a leading '/' added, is already normal |
| `Normalize.NormalOfIdempotent` | assignments/Project/internal_links.py:12-48 | outside the three non-idempotent kinds of input, normalising the normalised string gives it back |
| `Normalize.NormalizeIdempotent` | assignments/Project/internal_links.py:12-48 | `normalize_url(normalize_url(raw, base)) == normalize_url(raw, base)` outside the three non-idempotent kinds of input |
| `Normalize.IgnoredSchemesAreOpaque` | assignments/Project/internal_links.py:10 | no non-empty ignored scheme is http, https or one `urljoin` resolves against |
| `Normalize.IgnoredSchemeNeverNormalizes` | assignments/Project/internal_links.py:28-30 | a link whose scheme is in `IGNORED_SCHEMES` normalises to None against any base |
| `NormalizeExamples.PlainUrlNormalizes` | assignments/Project/internal_links.py:12-48 | the normalised form of any URL of host, optional port, plain path and optional fragment |
| `NormalizeExamples.PlainAuthority` | assignments/Project/internal_links.py:33-39 | a host and a numeric port hold no delimiter, and the default port is removed exactly when it is the scheme's |
| `NormalizeExamples.PlainWellFormed` | assignments/Project/internal_links.py:26 | such a URL's components are well formed |
| `NormalizeExamples.HttpDefaultPortStripped` | assignments/Project/internal_links.py:38-39 | "http://x.com:80/p" normalises to "http://x.com/p" |
| `NormalizeExamples.HttpsDefaultPortStripped` | assignments/Project/internal_links.py:38-39 | "https://x.com:443/p" normalises to "https://x.com/p" |
| `NormalizeExamples.OtherPortKept` | assignments/Project/internal_links.py:36-39 | "http://x.com:443/p" keeps its port |
| `NormalizeExamples.RootPathSupplied` | assignments/Project/internal_links.py:41 | "https://x.com" normalises to "https://x.com/" |
| `NormalizeExamples.TrailingSlashDropped` | assignments/Project/internal_links.py:43-44 | "https://x.com/a/" normalises to "https://x.com/a" |
| `NormalizeExamples.FragmentRemoved` | assignments/Project/internal_links.py:24 | "https://x.com/a#frag" and "https://x.com/a" normalise to the same string, "https://x.com/a" |
| `NormalizeExamples.FragmentDropped` | assignments/Project/internal_links.py:24 | "https://x.com/a#frag" normalises to "https://x.com/a" |
| `NormalizeExamples.PlainKept` | assignments/Project/internal_links.py:12-48 | "https://x.com/a" is its own normal form |
| `NormalizeExamples.MailtoRejected` | assignments/Project/internal_links.py:28-30 | "mailto:a@b.com" normalises to None |
| `NormalizeExamples.SlashOnlyPathNotIdempotent` | assignments/Project/internal_links.py:41-44 | "s://h//" normalises to "s://h", which normalises to "s://h/" |
| `NormalizeExamples.ParamsSplitOff` | assignments/Project/internal_links.py:26 | `urlparse` of "s://h/a;b" gives params "b" |
| `NormalizeExamples.ParamPathSlash` | assignments/Project/internal_links.py:43-44 | "/a;b/" loses its trailing '/' and becomes "/a;b" |
| `NormalizeExamples.ParamsInLastSegmentKept` | assignments/Project/internal_links.py:41-47 | "s://h/a;b/" normalises to "s://h/a;b" |
| `NormalizeExamples.ParamsInLastSegmentDropped` | assignments/Project/internal_links.py:46 | "s://h/a;b" normalises to "s://h/a": its params are dropped |
| `NormalizeExamples.ParamsInLastSegmentNotIdempotent` | assignments/Project/internal_links.py:41-47 | normalising "s://h/a;b/" twice differs from normalising it once |
| `NormalizeExamples.EmptyAuthorityParsed` | assignments/Project/internal_links.py:26 | "s:////h" parses to an empty netloc and path "//h" |
| `NormalizeExamples.EmptyAuthorityPrepared` | assignments/Project/internal_links.py:24-26 | the same holds after the fragment is removed |
| `NormalizeExamples.EmptyAuthorityKept` | assignments/Project/internal_links.py:32-46 | normalisation leaves those components unchanged |
| `NormalizeExamples.EmptyAuthorityNormalParts` | assignments/Project/internal_links.py:24-46 | the normalised components of "s:////h" are an empty netloc and path "//h" |
| `NormalizeExamples.EmptyAuthorityWritten` | assignments/Project/internal_links.py:47 | those components are written as "s://h" |
| `NormalizeExamples.EmptyAuthorityNotIdempotent` | assignments/Project/internal_links.py:41-47 | "s:////h" normalises to "s://h", which normalises to "s://h/" |
| `UrlParse.Parse` | assignments/Project/internal_links.py:26 | `urlparse`: a recognised scheme is lower-cased; otherwise the default is used. The netloc holds no '/', '?' or '#'; path and params hold no '?' or '#'; the query holds no '#'; no component holds a tab or line break |
| `UrlParse.SplitScheme` | assignments/Project/internal_links.py:26 | the scheme is the lower-cased text before the first ':' when that text is a scheme name; otherwise the default is used |
| `UrlParse.SplitNetloc` | assignments/Project/internal_links.py:26 | after "//", the netloc runs up to the first '/', '?' or '#' |
| `UrlParse.SplitParams` | assignments/Project/internal_links.py:26 | the path is left whole exactly when it has a '/' and its last segment has no ';'; otherwise it is cut at a ';' into path and params |
| `UrlParse.SplitRest` | assignments/Project/internal_links.py:26 | the components after the scheme hold no delimiter that belongs to a later component |
| `UrlParse.Unparse` | assignments/Project/internal_links.py:47 | `urlunparse` of components without '#' writes no '#' |
| `UrlParse.Defrag` | assignments/Project/internal_links.py:24 | `urldefrag` leaves no '#' and keeps a URL without one |
| `UrlParse.Join` | assignments/Project/internal_links.py:21 | `urljoin` keeps the URL when the base is empty, keeps the base when the URL is empty, and keeps an absolute URL whose scheme is not resolved against the base |
| `UrlParse.RemoveDots` | assignments/Project/internal_links.py:21 | dot segments resolved by `urljoin` leave no "." or ".." segment |
| `UrlParse.DropEmptyInner` | assignments/Project/internal_links.py:21 | `urljoin` drops the empty inner segments and keeps the first and last segment |
| `UrlParse.NonEmpty` | assignments/Project/internal_links.py:21 | the kept segments are the non-empty ones |
| `UrlParse.MergePath` | assignments/Project/internal_links.py:21 | a merged path is never empty |
| `UrlParse.ParseUnparse` | assignments/Project/internal_links.py:26-47 | `urlparse(urlunparse(p)) == p` for well-formed web components |
| `UrlParse.UnparseWellFormed` | assignments/Project/internal_links.py:47 | how `urlunparse` writes well-formed web components |
| `UrlParse.UnparseWebForm` | assignments/Project/internal_links.py:47 | `urlunparse` writes "scheme://netloc" + path + query + fragment when the path starts with '/' or the netloc is present |
| `UrlParse.UnparseKeepsScheme` | assignments/Project/internal_links.py:26-47 | re-parsing `urlunparse` output gives back the scheme |
| `UrlParse.DefragKeepsScheme` | assignments/Project/internal_links.py:24-26 | removing the fragment keeps the parsed scheme |
| `UrlParse.ParseWithScheme` | assignments/Project/internal_links.py:26 | a URL "scheme:rest" parses into that scheme and the split of rest |
| `UrlParse.SplitRestOf` | assignments/Project/internal_links.py:26 | the split of "//netloc/path?query#fragment" gives those components back |
| `UrlParse.SplitSchemeOf` | assignments/Project/internal_links.py:26 | splitting "scheme:rest" gives the scheme and rest |
| `UrlParse.SplitNetlocOf` | assignments/Project/internal_links.py:26 | splitting "//netloc" + tail gives netloc and tail |
| `UrlParse.SplitQueryOf` | assignments/Project/internal_links.py:26 | splitting at the first '?' recovers path and query |
| `UrlParse.SplitFragmentOf` | assignments/Project/internal_links.py:24-26 | splitting at the first '#' recovers the URL and its fragment |
| `UrlParse.NoParams` | assignments/Project/internal_links.py:26 | a path whose last segment has no ';' has no params |
| `UrlParse.SanitizeKeeps` | assignments/Project/internal_links.py:26 | a URL without leading blanks, tabs or line breaks is not changed by `urlsplit`'s clean-up |
| `UrlParse.SanitizeSchemed` | assignments/Project/internal_links.py:26 | the same for a URL that starts with a scheme |
| `UrlParse.WellFormedSafe` | assignments/Project/internal_links.py:47 | the written form of well-formed components holds no tab or line break |
| `UrlParse.HierSafe` | assignments/Project/internal_links.py:47 | the same for each written part |
| `UrlParse.LStripC0` | assignments/Project/internal_links.py:26 | `urlsplit` drops leading C0 controls and spaces, and only those |
| `UrlParse.RemoveUnsafe` | assignments/Project/internal_links.py:26 | `urlsplit` removes every tab and line break and changes nothing else in a URL without them |
| `UrlParse.LowerSchemeText` | assignments/Project/internal_links.py:29 | a lower-cased scheme name is a scheme name |
| `Strings.SplitOnce` | assignments/Project/internal_links.py:37 | `s.split(c, 1)`: the part before the first `c` and the rest; the whole string and "" when there is no `c` |
| `Strings.SplitOnceAt` | assignments/Project/internal_links.py:37 | splitting `a + [c] + b` with `c` not in `a` gives `(a, b)` |
| `Strings.LowerChar` | assignments/Project/internal_links.py:33 | an ASCII capital maps to its small letter; other characters are unchanged |
| `Strings.Lower` | assignments/Project/internal_links.py:33 | `lower()` maps every character by `LowerChar` |
| `Strings.LowerOfLowerCase` | assignments/Project/internal_links.py:33 | lower-casing lower-case text changes nothing |
| `Strings.LowerKeepsOthers` | assignments/Project/internal_links.py:33 | lower-casing neither adds nor removes a character that is not a letter |
| `Strings.RStrip` | assignments/Project/internal_links.py:44 | `rstrip("/")`: the longest prefix not ending in '/', with only '/' removed |
| `Strings.Split` | assignments/Project/internal_links.py:21 | `split("/")`: at least one piece, none holding '/'; a string without '/' is one piece; joining the pieces with '/' gives back the string |
| `Links.FindAll` | assignments/Project/internal_links.py:58-70 | `soup.find_all(tag, attr=True)`: exactly the elements of the page with that tag and attribute |
| `Links.FindAllAppend` | assignments/Project/internal_links.py:62-70 | `find_all` over two parts of a page is the concatenation of its results |
| `Links.FindAllSkips` | assignments/Project/internal_links.py:62-70 | an element of another tag does not change a `find_all` result |
| `Links.FindAllNone` | assignments/Project/internal_links.py:62-70 | a page without the tag gives no element |
| `Links.FindAllFirst` | assignments/Project/internal_links.py:58 | the first element `find_all` returns is an element of the page with no matching element before it |
| `Links.FirstBase` | assignments/Project/internal_links.py:58 | `soup.find('base', href=True)`: a `base` element with an `href`, with no such element before it, present exactly when one exists |
| `Links.BaseForJoin` | assignments/Project/internal_links.py:58-59 | the `<base href>` value when present, else the current URL |
| `Links.RawOf` | assignments/Project/internal_links.py:74 | `tag.get('href') or tag.get('src')`: a non-empty `href` wins, else the `src` |
| `Links.Contribution` | assignments/Project/internal_links.py:74-84 | a candidate adds only a non-empty raw value's normalised form, and adds it whenever the raw value has no ignored scheme and normalises |
| `Links.GatherMembership` | assignments/Project/internal_links.py:72-84 | a value is gathered exactly when some candidate contributes it |
| `Links.LinksOfStep` | assignments/Project/internal_links.py:73-84 | one more candidate adds its contribution to the links |
| `Links.AddCandidate` | assignments/Project/internal_links.py:74-84 | one loop iteration adds exactly the candidate's contribution |
| `Links.AddNormalized` | assignments/Project/internal_links.py:82-84 | `normalized` is added when it is not None |
| `Links.UnlinkedContributesNothing` | assignments/Project/internal_links.py:75-76 | a candidate without `href` or `src` adds nothing |
| `Links.IgnoredContributesNothing` | assignments/Project/internal_links.py:78-80 | a candidate with an ignored scheme adds nothing |
| `Links.KeptContribution` | assignments/Project/internal_links.py:82-84 | a kept candidate adds its normalised URL, or nothing when that is None |
| `Links.KeptIsNormalized` | assignments/Project/internal_links.py:82 | a kept candidate contributes the result of `normalize_url(raw, base)` |
| `Links.AddOption` | assignments/Project/internal_links.py:83-84 | adding an optional value adds it when present and nothing otherwise |
| `Links.CollectLinks` | assignments/Project/internal_links.py:73-84 | the first loop builds exactly the union of the candidates' contributions |
| `Links.ExtractLinks` | assignments/Project/internal_links.py:50-100 | the method returns exactly `PageLinks` of the page |
| `Links.LinksOfMembership` | assignments/Project/internal_links.py:72-84 | a URL is among the links exactly when some candidate contributes it |
| `Links.PageLinksAreNormalized` | assignments/Project/internal_links.py:55-100 | every link starts with "http://" or "https://", has no '#', and is `normalize_url` of the non-empty raw value of an a/area/link/iframe/frame candidate against the page's base |
| `Links.IgnoredCheckRedundant` | assignments/Project/internal_links.py:78-82 | skipping ignored schemes changes nothing: `normalize_url` already returns None for them |
| `Links.UnqueriedElementIgnored` | assignments/Project/internal_links.py:58-70 | inserting an element of any other tag does not change the links |
| `Links.ImageIgnored` | assignments/Project/internal_links.py:86-98 | inserting an `img` anywhere does not change the links |
| `Links.ImageOnlyPageHasNoLinks` | assignments/Project/internal_links.py:86-100 | a page of images only has no links |
| `VisibleText.SplitLines` | assignments/Project/internal_links.py:115 | `splitlines`: no line holds a line boundary |
| `VisibleText.BreakFrom` | assignments/Project/internal_links.py:115 | the next line boundary at or after a position |
| `VisibleText.NextLine` | assignments/Project/internal_links.py:115 | the next line starts after the boundary |
| `VisibleText.LStrip` | assignments/Project/internal_links.py:115-116 | `lstrip`: the suffix after the leading whitespace, starting with no whitespace |
| `VisibleText.RStripSpace` | assignments/Project/internal_links.py:115-116 | `rstrip`: the prefix before the trailing whitespace, ending with no whitespace |
| `VisibleText.Strip` | assignments/Project/internal_links.py:115-116 | `strip`: a slice of the input that is empty or has no whitespace at either end |
| `VisibleText.DoubleFrom` | assignments/Project/internal_links.py:116 | the next "  " at or after a position |
| `VisibleText.SplitDouble` | assignments/Project/internal_links.py:116 | `split("  ")`: at least one piece, none holding "  ", and no piece of a line holds a line boundary |
| `VisibleText.Kept` | assignments/Project/internal_links.py:116-117 | the stripped non-empty phrases, each with no whitespace at either end |
| `VisibleText.TrimmedStrip` | assignments/Project/internal_links.py:115-116 | stripping a trimmed string changes nothing |
| `VisibleText.SliceKeeps` | assignments/Project/internal_links.py:115-116 | a slice of a string without line boundaries or "  " has none either |
| `VisibleText.StrippedChunk` | assignments/Project/internal_links.py:116-117 | a stripped phrase, if kept, is a chunk |
| `VisibleText.PlainTail` | assignments/Project/internal_links.py:116 | the remaining phrases have no line boundaries or "  " |
| `VisibleText.AllChunksConcat` | assignments/Project/internal_links.py:116 | the chunks of two runs of lines are chunks |
| `VisibleText.KeptChunks` | assignments/Project/internal_links.py:116-117 | the kept phrases of a line are chunks: non-empty, trimmed, without line boundary or "  " |
| `VisibleText.LineChunksAreChunks` | assignments/Project/internal_links.py:116-117 | every chunk of a line is a chunk |
| `VisibleText.ChunksAreChunks` | assignments/Project/internal_links.py:115-117 | every chunk of the text is a chunk |
| `VisibleText.JoinChunks` | assignments/Project/internal_links.py:117 | chunks joined by single spaces form a chunk |
| `VisibleText.CleanupShape` | assignments/Project/internal_links.py:115-117 | the cleaned text is empty, or is non-empty with no whitespace at either end, no line boundary and no "  " |
| `VisibleText.NoBreakOneLine` | assignments/Project/internal_links.py:115 | text without line boundaries is one line |
| `VisibleText.NoDoubleOnePhrase` | assignments/Project/internal_links.py:116 | a line without "  " is one phrase |
| `VisibleText.ChunkCleanup` | assignments/Project/internal_links.py:115-117 | a chunk is its own clean-up |
| `VisibleText.CleanupIdempotent` | assignments/Project/internal_links.py:115-117 | cleaning the cleaned text changes nothing |
| `VisibleText.NonSpaceConcat` | assignments/Project/internal_links.py:115-117 | the non-whitespace characters of a concatenation are those of its parts |
| `VisibleText.NonSpaceOfSpaces` | assignments/Project/internal_links.py:115-117 | whitespace holds no non-whitespace character |
| `VisibleText.NonSpaceAllConcat` | assignments/Project/internal_links.py:115-117 | the same for sequences of strings |
| `VisibleText.NonSpaceAllCons` | assignments/Project/internal_links.py:115-117 | the same for a string before a sequence |
| `VisibleText.NonSpaceSplice` | assignments/Project/internal_links.py:115-116 | cutting out a run of whitespace keeps the non-whitespace characters |
| `VisibleText.SpacesVanish` | assignments/Project/internal_links.py:115-116 | appending whitespace adds no non-whitespace character |
| `VisibleText.LStripKeepsText` | assignments/Project/internal_links.py:115-116 | `lstrip` removes only whitespace |
| `VisibleText.RStripKeepsText` | assignments/Project/internal_links.py:115-116 | `rstrip` removes only whitespace |
| `VisibleText.StripKeepsText` | assignments/Project/internal_links.py:115-116 | `strip` removes only whitespace |
| `VisibleText.BoundaryIsSpace` | assignments/Project/internal_links.py:115 | every line boundary is whitespace |
| `VisibleText.SplitLinesKeepsText` | assignments/Project/internal_links.py:115 | `splitlines` removes only whitespace |
| `VisibleText.SplitDoubleKeepsText` | assignments/Project/internal_links.py:116 | `split("  ")` removes only spaces |
| `VisibleText.KeptKeepsText` | assignments/Project/internal_links.py:116-117 | stripping the phrases and dropping the empty ones removes only whitespace |
| `VisibleText.ChunksKeepText` | assignments/Project/internal_links.py:116-117 | building the chunks removes only whitespace |
| `VisibleText.JoinKeepsText` | assignments/Project/internal_links.py:117 | joining with single spaces adds only whitespace |
| `VisibleText.CleanupKeepsText` | assignments/Project/internal_links.py:115-117 | the clean-up keeps every non-whitespace character, in order |
| `Crawl.EnqueueLinks` | assignments/Project/internal_links.py:160-167 | the internal links gain exactly the same-netloc found links. The queue gains only same-netloc, unvisited links, every such link ends up queued, and a queue without duplicates stays so |
| `Crawl.FilterAdd` | assignments/Project/internal_links.py:162 | filtering one more link adds it exactly when it passes the netloc test |
| `Crawl.FilterNoEmpty` | assignments/Project/internal_links.py:162 | the empty string is never a filtered link when it was not a found one |
| `Crawl.ClosedAt` | assignments/Project/internal_links.py:160-167 | the internal links found on a page of the universe lie in the universe |
| `Crawl.PagesGiveLinks` | assignments/Project/internal_links.py:155-158 | the links of each URL are the links extracted from its fetched page |
| `Crawl.NoLinksWhenFailed` | assignments/Project/internal_links.py:184-189 | a failed fetch yields no links |
| `Crawl.LinksWhenPage` | assignments/Project/internal_links.py:155-158 | a fetched page yields `extract_links_from_soup` of its elements |
| `Crawl.NoEmptyLink` | assignments/Project/internal_links.py:158 | no extracted link is the empty string |
| `Crawl.FoundStep` | assignments/Project/internal_links.py:160-164 | visiting one more URL adds its internal links to those found |
| `Crawl.FoundUnchanged` | assignments/Project/internal_links.py:184-189 | visiting a URL without links changes no found link |
| `Crawl.FoundAreInternal` | assignments/Project/internal_links.py:158-164 | every kept internal link has the base netloc and comes from the page of a visited URL whose fetch succeeded |
| `Crawl.PagesStep` | assignments/Project/internal_links.py:148-179 | visiting one more URL adds it to the pages exactly when its fetch gave a page |
| `Crawl.StoredUrlsAppend` | assignments/Project/internal_links.py:179 | appending a document adds its URL to the stored URLs |
| `Crawl.StoreDocument` | assignments/Project/internal_links.py:169-180 | storing the fetched page's document for a new URL keeps one document per page, stamped with the clock reading of its position |
| `Crawl.SkipDocument` | assignments/Project/internal_links.py:184-189 | a failed URL adds no document and keeps the documents in order |
| `Crawl.PageOrder` | assignments/Project/internal_links.py:172-179 | the URLs of the visit order whose fetch gave a page are exactly its members with a page, and no more of them |
| `Crawl.PageOrderAppend` | assignments/Project/internal_links.py:172-179 | visiting one more URL appends it to the page order exactly when its fetch gave a page |
| `Crawl.DocUrlsAppend` | assignments/Project/internal_links.py:179 | appending a document appends its URL to the documents' URLs |
| `Crawl.CrawlStep` | assignments/Project/internal_links.py:145-148 | visiting an unvisited head that is the seed or a found internal link extends a valid visit order to a valid one |
| `Crawl.DocsStep` | assignments/Project/internal_links.py:169-189 | after a visit the documents' URLs are still the page order of the visits: a page appends its URL, a failed fetch appends nothing |
| `Crawl.FirstFinder` | assignments/Project/internal_links.py:156-167 | the position of the first visited page on which a URL was found and kept: no earlier page links to it, and that page does unless the result is the length of the order |
| `Crawl.FinderAppend` | assignments/Project/internal_links.py:145-167 | visiting one more page keeps the first finder of every URL found so far; a URL not found so far is then first found on the new page exactly when that page links to it |
| `Crawl.VisitedRanks` | assignments/Project/internal_links.py:145-167 | each visit after the seed was first found on an earlier page, and keeps its first finder when one more page is visited |
| `Crawl.FoundQueued` | assignments/Project/internal_links.py:160-167 | a URL found on a visited page and not visited is queued |
| `Crawl.OnlySeedQueued` | assignments/Project/internal_links.py:125 | before the first visit no entry after the head of the queue is a URL |
| `Crawl.VisitInFinderOrder` | assignments/Project/internal_links.py:145-148 | visiting the head of a queue in first-finder order keeps the visits in first-finder order |
| `Crawl.EntryRanks` | assignments/Project/internal_links.py:145-167 | after the head is popped, its page visited and the new links appended, each kept entry keeps its first finder and each appended one was first found on the page of the head |
| `Crawl.AppendedRank` | assignments/Project/internal_links.py:160-167 | a link that the page of the head appends to the queue was first found on that page |
| `Crawl.QueueStep` | assignments/Project/internal_links.py:145-167 | popping the head, visiting it and appending its new links keeps the queue in first-finder order |
| `Crawl.BreadthFirstStep` | assignments/Project/internal_links.py:145-167 | one visit keeps both the visits and the queue in first-finder order |
| `Crawl.TailExtends` | assignments/Project/internal_links.py:184-189 | a visit that appends nothing leaves the rest of the queue as it was, without duplicates |
| `Crawl.QueueTail` | assignments/Project/internal_links.py:145-147 | dropping the head keeps the queue in first-finder order |
| `Crawl.NoneSkippedNow` | assignments/Project/internal_links.py:140-189 | at every point of the crawl, no link found on a visited page is unvisited while a URL first found on a later page was visited |
| `Crawl.Step` | assignments/Project/internal_links.py:145-189 | a `None`, empty or visited head is dropped and anything else is visited. The invariant, the visit order, the document order and first-finder order are kept. Either the unvisited part of the universe shrinks, or nothing is visited and the queue gets shorter |
| `Crawl.SkipHead` | assignments/Project/internal_links.py:145-147 | dropping a None, empty or visited head keeps the queue invariant and loses no pending URL |
| `Crawl.PopHead` | assignments/Project/internal_links.py:145-148 | popping and visiting an unvisited head keeps the queue invariant and loses no pending URL |
| `Crawl.HeadOk` | assignments/Project/internal_links.py:145 | a queued URL is in the universe and is the seed or an internal link |
| `Crawl.AppendLinks` | assignments/Project/internal_links.py:166-167 | appending the new unvisited links keeps the queue invariant and queues every new internal link |
| `Crawl.VisitCount` | assignments/Project/internal_links.py:141-149 | visiting a new URL increases the count by one, keeps it within the cap and shrinks the unvisited part of the universe |
| `Crawl.VisitHead` | assignments/Project/internal_links.py:145-149 | the same for the queue head of a crawl state |
| `Crawl.InvInit` | assignments/Project/internal_links.py:124-136 | the initial state (queue holding the normalised seed, all else empty) satisfies the invariant |
| `Crawl.InvIntro` | assignments/Project/internal_links.py:140-189 | the parts of the invariant together give the invariant |
| `Crawl.InvSkip` | assignments/Project/internal_links.py:145-147 | skipping the head keeps the invariant |
| `Crawl.VisitFailed` | assignments/Project/internal_links.py:184-189 | after a failed fetch every part of the invariant holds with the URL visited and nothing else changed |
| `Crawl.InvFailed` | assignments/Project/internal_links.py:184-189 | a failed fetch keeps the invariant: the URL is visited and counted, and nothing is stored or queued |
| `Crawl.PageQueue` | assignments/Project/internal_links.py:160-167 | processing a page keeps the queue invariant and queues its new internal links |
| `Crawl.VisitPage` | assignments/Project/internal_links.py:148-180 | after a fetched page every part of the invariant holds |
| `Crawl.InvPage` | assignments/Project/internal_links.py:148-180 | a fetched page keeps the invariant: its internal links are added, its new ones queued and its document stored |
| `Crawl.InvDone` | assignments/Project/internal_links.py:140-143 | when the queue is empty or the cap is reached, every internal link and the seed are visited, unless the cap was reached |
| `Crawl.ProcessPage` | assignments/Project/internal_links.py:153-180 | the internal links gain the same-netloc links of the page. The queue keeps its old entries in front and gains only unvisited same-netloc links of the page, and every such link ends up queued. One document is appended with the page's URL, cleaned text, its length, the clock and the base domain. The invariant holds |
| `Crawl.Visit` | assignments/Project/internal_links.py:145-189 | the head is visited and counted once. A failed fetch changes nothing else. For a page, the internal links gain its same-netloc links. The rest of the queue is kept in front and followed only by unvisited such links, and each of them is queued. Exactly that page's document is appended. The invariant is kept and the unvisited part of the universe shrinks. The visit order grows by the head and stays a valid crawl order, and the documents still follow it. The visits and the queue stay in first-finder order |
| `Crawl.CrawlLoop` | assignments/Project/internal_links.py:140-189 | the loop ends with an empty queue or with the cap reached, and keeps the invariant, the visit order, the document order and first-finder order |
| `Crawl.CrawlFrom` | assignments/Project/internal_links.py:124-189 | the loop result, given below for `ScrapeAndStore` |
| `Crawl.ScrapeAndStore` | assignments/Project/internal_links.py:119-189 | (1) `pages_crawled == |visited|`, so no URL is crawled twice. (2) `pages_stored == len(scraped_pages) <= pages_crawled`. (3) When `max_pages` is truthy, `pages_crawled <= max(max_pages, 0)`: a negative cap stops the crawl before the first visit. (4) The internal links are exactly the same-netloc links of the visited pages. (5) Every visited URL is the seed or an internal link. (6) There is one document per successfully fetched URL, with its cleaned text and `text_length == len(text)`. (7) Unless the cap stopped the crawl, every internal link and the seed were visited. (8) The ghost visit order lists each visited URL once. It starts at the seed, and every later URL was found on the page of an earlier one, so every visited URL is reachable from the seed. (9) The documents' URLs are the visited URLs whose fetch gave a page, in visit order. (10) The visits after the seed come in the order of the pages on which each was first found. (11) No link found on a visited page is left unvisited while a URL first found on a later page was visited, so when the cap stops the crawl, a page that still has unvisited links comes no earlier than the page on which any visited URL was first found |

## Left out

- HTTP transport (`requests.Session`, `get`, `raise_for_status`, timeouts, lines 137-138 and 153-154) is network I/O. It becomes the parameter `fetch`.
- BeautifulSoup parsing, copying, `decompose` and `get_text` (lines 105-112 and 155) are a foreign library. A page is a sequence of elements with their `href`/`src` attributes and an already extracted text.
- The JSON and gzip output, `load_scraped_data` and the `__main__` block (lines 191-271) are file I/O and serialisation.
- The `print` progress output, and with it the `new_internal_count` counter (lines 159, 165 and 181-182), has no effect on state.
- `datetime.now(timezone.utc).isoformat()` (line 176) is the clock. It becomes the parameter `clock`, indexed by the number of stored documents.
- The unused `consider_tags` parameter of `extract_links_from_soup` has no effect. `output_file` is used only by the output step.
- `assignments/Project-Erica/app.py` is a web route with no crawl logic and is not part of this model.
- `Links.VisitImages`: the image loop (lines 87-98) normalises each source and discards it, so the method has no postcondition.
- `Crawl.Visit`: an exception raised while a page is processed (`ProcessingFailed`) is modelled as raised before any state change. In the source, an exception from `get_visible_text_without_mutation` (line 170) comes after the page's links were added and queued.
- `Crawl.EnqueueLinks`: Python walks the set of found links in an order of its own. The method takes them in any order, and its postcondition holds for every order.
- `Crawl.CrawlFrom`, `Crawl.CrawlLoop`, `Crawl.ScrapeAndStore`: termination rests on a ghost finite `universe` that holds the seed and every internal link found on its pages. A crawl over an unbounded web is not modelled. This includes a capped crawl of a site with unboundedly many reachable URLs, which the source stops at the cap.
- `UrlParse.Parse`: the `ValueError` paths of `urlsplit` are not modelled. These are unbalanced brackets in the netloc and the NFKC check of non-ASCII netlocs. The `ParseResult` cache is not modelled either.
- `Strings.Lower`, `Strings.LowerChar`: lower-case ASCII letters only. Python's `str.lower` also lower-cases other letters.
- The `urllib.parse` functions follow CPython 3.11. Other releases are not modelled. Later releases changed how `urlunsplit` writes an empty netloc before a path starting "//", and the third non-idempotent kind of input depends on that branch.
- `UrlParse.Join`: the contract states only the cases where `urljoin` returns one of its inputs unchanged. The body follows CPython's algorithm.
