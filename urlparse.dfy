/** A model of the parts of Python's `urllib.parse` that `normalize_url` and
    `extract_links_from_soup` call: `urlparse`, `urlunparse`, `urldefrag` and `urljoin`,
    following CPython 3.11. Components are split as in section 3 of RFC 3986 (scheme, then
    `//authority`, then path, query and fragment), with Python's extra `;params` component. */
module UrlParse {
  import opened Strings

  /** The 6-tuple `ParseResult(scheme, netloc, path, params, query, fragment)`. */
  datatype Parts = Parts(scheme: string, netloc: string, path: string, params: string, query: string, fragment: string)

  /** Membership in `urllib.parse.uses_relative`, `uses_netloc` and `uses_params`. */
  predicate UsesRelative(scheme: string)
  {
    scheme in {"", "ftp", "http", "gopher", "nntp", "imap", "wais", "file", "https",
      "shttp", "mms", "prospero", "rtsp", "rtspu", "sftp", "svn", "svn+ssh", "ws", "wss"}
  }

  predicate UsesNetloc(scheme: string)
  {
    scheme in {"", "ftp", "http", "gopher", "nntp", "telnet", "imap", "wais", "file",
      "mms", "https", "shttp", "snews", "prospero", "rtsp", "rtspu", "rsync", "svn", "svn+ssh", "sftp", "nfs",
      "git", "git+ssh", "ws", "wss"}
  }

  predicate UsesParams(scheme: string)
  {
    scheme in {"", "ftp", "hdl", "prospero", "http", "imap", "https", "shttp", "rtsp",
      "rtspu", "sip", "sips", "mms", "sftp", "tel"}
  }

  predicate IsAsciiAlpha(c: char) { 'a' <= c <= 'z' || 'A' <= c <= 'Z' }

  /** `urllib.parse.scheme_chars`. */
  predicate IsSchemeChar(c: char) { IsAsciiAlpha(c) || '0' <= c <= '9' || c == '+' || c == '-' || c == '.' }

  /** What `urlsplit` accepts in front of the first ':' as a scheme. */
  predicate IsSchemeText(s: string)
  {
    |s| > 0 && IsAsciiAlpha(s[0]) && forall k :: 0 <= k < |s| ==> IsSchemeChar(s[k])
  }

  /** The leading characters `urlsplit` strips (C0 controls and space) ... */
  predicate IsC0OrSpace(c: char) { c <= ' ' }

  /** ... and the characters it deletes everywhere (tab, CR, LF). */
  predicate IsUnsafe(c: char) { c == '\t' || c == '\r' || c == '\n' }

  predicate NoUnsafe(s: string) { '\t' !in s && '\r' !in s && '\n' !in s }

  lemma NoUnsafeJoin(a: string, b: string)
    requires NoUnsafe(a) && NoUnsafe(b)
    ensures NoUnsafe(a + b)
  {
  }

  function LStripC0(s: string): (r: string)
    ensures |r| <= |s| && r == s[|s| - |r|..]
    ensures r == [] || !IsC0OrSpace(r[0])
    ensures s != [] && !IsC0OrSpace(s[0]) ==> r == s
  {
    if s != [] && IsC0OrSpace(s[0]) then LStripC0(s[1..]) else s
  }

  function RemoveUnsafe(s: string): (r: string)
    ensures NoUnsafe(r)
    ensures NoUnsafe(s) ==> r == s
  {
    if s == [] then [] else (if IsUnsafe(s[0]) then [] else [s[0]]) + RemoveUnsafe(s[1..])
  }

  /** The clean-up `urlsplit` performs before splitting. */
  function Sanitize(url: string): string
  {
    RemoveUnsafe(LStripC0(url))
  }

  /** Whether `urlsplit` takes a scheme off the front of `u`. */
  predicate HasScheme(u: string)
  {
    var i := Find(u, ':');
    0 < i < |u| && IsSchemeText(u[..i])
  }

  lemma LowerSchemeText(s: string)
    ensures IsSchemeText(s) ==> IsSchemeText(Lower(s)) && IsLowerCase(Lower(s)) && ':' !in Lower(s)
  {
    if IsSchemeText(s) {
      var l := Lower(s);
      forall k | 0 <= k < |s| ensures IsSchemeChar(l[k]) && l[k] != ':' {
        assert l[k] == LowerChar(s[k]);
      }
    }
  }

  predicate IsDelim(c: char) { c == '/' || c == '?' || c == '#' }

  /** The first index at or after `from` holding '/', '?' or '#', or `|s|`. */
  function FindDelim(s: string, from: nat): (d: nat)
    requires from <= |s|
    ensures from <= d <= |s|
    ensures d < |s| ==> IsDelim(s[d])
    ensures forall k :: from <= k < d ==> !IsDelim(s[k])
    decreases |s| - from
  {
    if from == |s| || IsDelim(s[from]) then from else FindDelim(s, from + 1)
  }

  /** `_splitnetloc`: the authority after a leading "//" runs to the first '/', '?' or '#'. */
  function SplitNetloc(rest: string): (r: (string, string))
    ensures '/' !in r.0 && '?' !in r.0 && '#' !in r.0
    ensures StartsWith(rest, "//") ==> rest == "//" + r.0 + r.1 && (r.1 == [] || IsDelim(r.1[0]))
    ensures !StartsWith(rest, "//") ==> r == ("", rest)
  {
    if StartsWith(rest, "//") then
      var d := FindDelim(rest, 2);
      assert rest == rest[..2] + rest[2..d] + rest[d..];
      (rest[2..d], rest[d..])
    else ("", rest)
  }

  /** `_splitparams`: the parameters start at the first ';' after the last '/'. */
  function SplitParams(url: string): (r: (string, string))
    requires ';' in url
    ensures ('/' in url && ';' !in url[LastIndex(url, '/')..]) <==> r == (url, "")
    ensures r != (url, "") ==> url == r.0 + ";" + r.1
  {
    if '/' in url then
      var i := FindFrom(url, ';', LastIndex(url, '/'));
      if i == |url| then (url, "")
      else
        assert url == url[..i] + ";" + url[i + 1..];
        (url[..i], url[i + 1..])
    else
      var i := Find(url, ';');
      assert url == url[..i] + ";" + url[i + 1..];
      (url[..i], url[i + 1..])
  }

  /** The scheme `urlsplit` takes off the front of `u`, or `default`, and what follows it. */
  function SplitScheme(u: string, default: string): (r: (string, string))
    ensures HasScheme(u) ==> r.0 == Lower(u[..Find(u, ':')]) && IsSchemeText(r.0) && IsLowerCase(r.0)
    ensures HasScheme(u) ==> u == u[..Find(u, ':')] + ":" + r.1
    ensures !HasScheme(u) ==> r == (default, u)
  {
    var i := Find(u, ':');
    LowerSchemeText(u[..i]);
    if HasScheme(u) then
      assert u == u[..i] + ":" + u[i + 1..];
      (Lower(u[..i]), u[i + 1..])
    else (default, u)
  }

  /** The path and the parameters `urlparse` splits it into, when the scheme uses them. */
  function PathParams(scheme: string, path: string): (string, string)
  {
    if UsesParams(scheme) && ';' in path then SplitParams(path) else (path, "")
  }

  /** Everything `urlparse` does once the scheme is known. */
  function SplitRest(scheme: string, rest: string): (r: Parts)
    ensures r.scheme == scheme
    ensures '/' !in r.netloc && '?' !in r.netloc && '#' !in r.netloc
    ensures '?' !in r.path && '#' !in r.path && '?' !in r.params && '#' !in r.params && '#' !in r.query
    ensures NoUnsafe(rest) ==>
      NoUnsafe(r.netloc) && NoUnsafe(r.path) && NoUnsafe(r.params) && NoUnsafe(r.query) && NoUnsafe(r.fragment)
  {
    var nl := SplitNetloc(rest);
    var fr := SplitOnce(nl.1, '#');
    var qu := SplitOnce(fr.0, '?');
    var pp := PathParams(scheme, qu.0);
    Parts(scheme, nl.0, pp.0, pp.1, qu.1, fr.1)
  }

  /** `urlparse(url, scheme=default)`: split a URL into its six components. */
  function Parse(url: string, default: string): (r: Parts)
    ensures var u := Sanitize(url);
            HasScheme(u) ==> r.scheme == Lower(u[..Find(u, ':')]) && IsSchemeText(r.scheme) && IsLowerCase(r.scheme)
    ensures !HasScheme(Sanitize(url)) ==> r.scheme == default
    ensures '/' !in r.netloc && '?' !in r.netloc && '#' !in r.netloc
    ensures '?' !in r.path && '#' !in r.path && '?' !in r.params && '#' !in r.params && '#' !in r.query
    ensures NoUnsafe(r.netloc) && NoUnsafe(r.path) && NoUnsafe(r.params) && NoUnsafe(r.query) && NoUnsafe(r.fragment)
  {
    var u := Sanitize(url);
    var sch := SplitScheme(u, default);
    SplitRest(sch.0, sch.1)
  }

  /** The part of `urlunsplit`'s output between "scheme:" and the query: the path, with a
      "//netloc" authority in front when there is a netloc or the scheme uses one. */
  function Hier(p: Parts): string
  {
    var u0 := if p.params != "" then p.path + ";" + p.params else p.path;
    if p.netloc != "" || (p.scheme != "" && UsesNetloc(p.scheme) && !StartsWith(u0, "//"))
    then "//" + p.netloc + (if u0 != "" && u0[0] != '/' then "/" + u0 else u0)
    else u0
  }

  function SchemePart(scheme: string): string
  {
    if scheme != "" then scheme + ":" else ""
  }

  function QueryPart(query: string): string
  {
    if query != "" then "?" + query else ""
  }

  function FragmentPart(fragment: string): string
  {
    if fragment != "" then "#" + fragment else ""
  }

  lemma NoQuery(s: string)
    ensures s + QueryPart("") == s
  {
    assert s + "" == s;
  }

  lemma NoQueryNoFragment(s: string)
    ensures s + QueryPart("") + FragmentPart("") == s
  {
    assert s + "" + "" == s;
  }

  /** No component holds a '#' and the fragment is empty. */
  predicate NoHash(p: Parts)
  {
    '#' !in p.scheme && '#' !in p.netloc && '#' !in p.path && '#' !in p.params && '#' !in p.query && p.fragment == ""
  }

  /** `urlunparse`: reassemble the six components. */
  function Unparse(p: Parts): (r: string)
    ensures NoHash(p) ==> '#' !in r
  {
    SchemePart(p.scheme) + Hier(p) + QueryPart(p.query) + FragmentPart(p.fragment)
  }

  /** `urldefrag(url)[0]`: a URL containing '#' is re-assembled without its fragment. */
  function Defrag(url: string): (r: string)
    ensures '#' !in r
    ensures '#' !in url ==> r == url
  {
    if '#' in url then Unparse(Parse(url, "").(fragment := "")) else url
  }

  /** The components `Unparse` can write so that `Parse` reads back exactly the same ones:
      an http(s) scheme, an authority and path free of the delimiters that would end them early,
      a path that starts with '/' (and not with "//" when there is no authority, since `urlunparse`
      would then write the path where the authority goes), no ';' in the last path segment and
      no parameters. */
  predicate WellFormed(p: Parts)
  {
    && p.scheme in {"http", "https"}
    && '/' !in p.netloc && '?' !in p.netloc && '#' !in p.netloc && NoUnsafe(p.netloc)
    && '?' !in p.path && '#' !in p.path && NoUnsafe(p.path)
    && (p.path == "" || p.path[0] == '/')
    && !(p.netloc == "" && StartsWith(p.path, "//"))
    && (';' in p.path ==> ';' !in p.path[LastIndex(p.path, '/')..])
    && p.params == ""
    && '#' !in p.query && NoUnsafe(p.query)
    && NoUnsafe(p.fragment)
  }

  lemma SplitSchemeOf(scheme: string, rest: string, default: string)
    requires IsSchemeText(scheme) && IsLowerCase(scheme)
    ensures SplitScheme(scheme + ":" + rest, default) == (scheme, rest)
  {
    var u := scheme + ":" + rest;
    forall k | 0 <= k < |scheme| ensures u[k] != ':' {
      assert u[k] == scheme[k] && IsSchemeChar(scheme[k]);
    }
    FindIs(u, ':', |scheme|);
    assert u[..|scheme|] == scheme;
    assert u[|scheme| + 1..] == rest;
    assert Lower(scheme) == scheme;
  }

  lemma SplitNetlocOf(netloc: string, tail: string)
    requires '/' !in netloc && '?' !in netloc && '#' !in netloc
    requires tail == "" || IsDelim(tail[0])
    ensures SplitNetloc("//" + netloc + tail) == (netloc, tail)
  {
    var rest := "//" + netloc + tail;
    assert StartsWith(rest, "//");
    forall k | 2 <= k < 2 + |netloc| ensures !IsDelim(rest[k]) {
      assert rest[k] == netloc[k - 2];
    }
    assert 2 + |netloc| < |rest| ==> rest[2 + |netloc|] == tail[0];
    assert FindDelim(rest, 2) == 2 + |netloc|;
    assert rest[2..2 + |netloc|] == netloc;
    assert rest[2 + |netloc|..] == tail;
  }

  lemma SplitQueryOf(path: string, query: string)
    requires '?' !in path
    ensures SplitOnce(path + QueryPart(query), '?') == (path, query)
  {
    if query != "" {
      assert path + QueryPart(query) == path + ['?'] + query;
      SplitOnceAt(path, '?', query);
    } else {
      assert path + QueryPart(query) == path;
    }
  }

  lemma SplitFragmentOf(front: string, fragment: string)
    requires '#' !in front
    ensures SplitOnce(front + FragmentPart(fragment), '#') == (front, fragment)
  {
    if fragment != "" {
      assert front + FragmentPart(fragment) == front + ['#'] + fragment;
      SplitOnceAt(front, '#', fragment);
    } else {
      assert front + FragmentPart(fragment) == front;
    }
  }

  lemma ConcatRegroup(a: string, b: string, c: string, d: string)
    ensures a + b + c + d == a + (b + c + d)
  {
  }

  lemma SplitRestOf(scheme: string, netloc: string, path: string, query: string, fragment: string)
    requires '/' !in netloc && '?' !in netloc && '#' !in netloc
    requires '?' !in path && '#' !in path && (path == "" || path[0] == '/')
    requires '#' !in query
    ensures var pp := PathParams(scheme, path);
            SplitRest(scheme, "//" + netloc + path + QueryPart(query) + FragmentPart(fragment))
            == Parts(scheme, netloc, pp.0, pp.1, query, fragment)
  {
    var front := path + QueryPart(query);
    var tail := front + FragmentPart(fragment);
    var rest := "//" + netloc + path + QueryPart(query) + FragmentPart(fragment);
    assert SplitNetloc(rest) == (netloc, tail) by {
      ConcatRegroup("//" + netloc, path, QueryPart(query), FragmentPart(fragment));
      assert tail == "" || IsDelim(tail[0]);
      SplitNetlocOf(netloc, tail);
    }
    assert SplitOnce(tail, '#') == (front, fragment) by {
      SplitFragmentOf(front, fragment);
    }
    assert SplitOnce(front, '?') == (path, query) by {
      SplitQueryOf(path, query);
    }
  }

  /** A path whose last segment holds no ';' keeps no parameters. */
  lemma NoParams(scheme: string, path: string)
    requires ';' in path ==> '/' in path && ';' !in path[LastIndex(path, '/')..]
    ensures PathParams(scheme, path) == (path, "")
  {
  }

  lemma SanitizeKeeps(u: string)
    requires u != [] && !IsC0OrSpace(u[0]) && NoUnsafe(u)
    ensures Sanitize(u) == u
  {
  }

  lemma SchemeJoin(scheme: string, netloc: string, path: string, tail: string)
    ensures scheme + ":" + ("//" + netloc + path) + tail == scheme + "://" + netloc + path + tail
  {
    assert scheme + ":" + ("//" + netloc + path) == scheme + "://" + netloc + path;
  }

  lemma SchemeJoinBare(scheme: string, netloc: string, path: string)
    ensures scheme + ":" + ("//" + netloc + path + QueryPart("") + FragmentPart("")) == scheme + "://" + netloc + path
  {
    NoQueryNoFragment("//" + netloc + path);
    assert scheme + ":" + ("//" + netloc + path) == scheme + "://" + netloc + path;
  }

  /** With an authority-using scheme, no parameters and a path that is empty or starts with a
      single '/' (or with "//" under a non-empty authority), `urlunparse` writes
      "scheme://netloc" followed by the path, "?query" and "#fragment". */
  lemma UnparseWebForm(n: Parts)
    requires n.scheme != "" && UsesNetloc(n.scheme) && n.params == ""
    requires n.path == "" || n.path[0] == '/'
    requires !(n.netloc == "" && StartsWith(n.path, "//"))
    ensures Unparse(n) == n.scheme + "://" + n.netloc + n.path + QueryPart(n.query) + FragmentPart(n.fragment)
  {
    assert Hier(n) == "//" + n.netloc + n.path;
    SchemeJoin(n.scheme, n.netloc, n.path, QueryPart(n.query) + FragmentPart(n.fragment));
  }

  lemma UnparseWellFormed(p: Parts)
    requires WellFormed(p)
    ensures Unparse(p) == p.scheme + ":" + ("//" + p.netloc + p.path + QueryPart(p.query) + FragmentPart(p.fragment))
  {
    assert Hier(p) == "//" + p.netloc + p.path;
  }

  /** Round trip: reparsing what `Unparse` writes gives back the same components. */
  lemma ParseUnparse(p: Parts)
    requires WellFormed(p)
    ensures Parse(Unparse(p), "") == p
  {
    var rest := "//" + p.netloc + p.path + QueryPart(p.query) + FragmentPart(p.fragment);
    UnparseWellFormed(p);
    WellFormedSafe(p);
    ParseWithScheme(p.scheme, rest);
    SplitRestOf(p.scheme, p.netloc, p.path, p.query, p.fragment);
    NoParams(p.scheme, p.path);
  }

  /** What `Unparse` writes for well-formed components: a lower-case scheme, then a text
      without tabs or newlines. */
  lemma WellFormedSafe(p: Parts)
    requires WellFormed(p)
    ensures IsSchemeText(p.scheme) && IsLowerCase(p.scheme)
    ensures NoUnsafe("//" + p.netloc + p.path + QueryPart(p.query) + FragmentPart(p.fragment))
  {
    NoUnsafeJoin("//", p.netloc);
    NoUnsafeJoin("//" + p.netloc, p.path);
    NoUnsafeJoin("?", p.query);
    NoUnsafeJoin("#", p.fragment);
    NoUnsafeJoin("//" + p.netloc + p.path, QueryPart(p.query));
    NoUnsafeJoin("//" + p.netloc + p.path + QueryPart(p.query), FragmentPart(p.fragment));
  }

  lemma SanitizeSchemed(scheme: string, rest: string)
    requires IsSchemeText(scheme) && NoUnsafe(rest)
    ensures Sanitize(scheme + ":" + rest) == scheme + ":" + rest
  {
    var u := scheme + ":" + rest;
    assert NoUnsafe(scheme) by {
      forall k | 0 <= k < |scheme| ensures !IsUnsafe(scheme[k]) {
        assert IsSchemeChar(scheme[k]);
      }
    }
    assert u[0] == scheme[0];
    SanitizeKeeps(u);
  }

  /** `urlparse` of "scheme:rest" takes off that scheme and splits the rest. */
  lemma ParseWithScheme(scheme: string, rest: string)
    requires IsSchemeText(scheme) && IsLowerCase(scheme) && NoUnsafe(rest)
    ensures Parse(scheme + ":" + rest, "") == SplitRest(scheme, rest)
  {
    var u := scheme + ":" + rest;
    SanitizeSchemed(scheme, rest);
    assert SplitScheme(u, "") == (scheme, rest) by {
      SplitSchemeOf(scheme, rest, "");
    }
  }

  /** Every piece `Unparse` writes after the scheme is free of tabs and newlines when the
      components are. */
  lemma HierSafe(q: Parts)
    requires NoUnsafe(q.netloc) && NoUnsafe(q.path) && NoUnsafe(q.params) && NoUnsafe(q.query) && NoUnsafe(q.fragment)
    ensures NoUnsafe(Hier(q)) && NoUnsafe(QueryPart(q.query)) && NoUnsafe(FragmentPart(q.fragment))
  {
    var u0 := if q.params != "" then q.path + ";" + q.params else q.path;
    if q.params != "" {
      NoUnsafeJoin(q.path, ";");
      NoUnsafeJoin(q.path + ";", q.params);
    }
    assert NoUnsafe(u0);
    var tail := if u0 != "" && u0[0] != '/' then "/" + u0 else u0;
    NoUnsafeJoin("/", u0);
    assert NoUnsafe(tail);
    NoUnsafeJoin("//", q.netloc);
    NoUnsafeJoin("//" + q.netloc, tail);
    NoUnsafeJoin("?", q.query);
    NoUnsafeJoin("#", q.fragment);
  }

  /** Reparsing what `Unparse` writes finds the scheme it was given. */
  lemma UnparseKeepsScheme(q: Parts)
    requires IsSchemeText(q.scheme) && IsLowerCase(q.scheme)
    requires NoUnsafe(q.netloc) && NoUnsafe(q.path) && NoUnsafe(q.params) && NoUnsafe(q.query) && NoUnsafe(q.fragment)
    ensures Parse(Unparse(q), "").scheme == q.scheme
  {
    var tail := Hier(q) + QueryPart(q.query) + FragmentPart(q.fragment);
    assert Unparse(q) == q.scheme + ":" + tail;
    assert NoUnsafe(q.scheme) by {
      forall k | 0 <= k < |q.scheme| ensures !IsUnsafe(q.scheme[k]) { assert IsSchemeChar(q.scheme[k]); }
    }
    HierSafe(q);
    NoUnsafeJoin(q.scheme, ":");
    NoUnsafeJoin(q.scheme + ":", Hier(q));
    NoUnsafeJoin(q.scheme + ":" + Hier(q), QueryPart(q.query));
    NoUnsafeJoin(q.scheme + ":" + Hier(q) + QueryPart(q.query), FragmentPart(q.fragment));
    assert NoUnsafe(Unparse(q));
    SanitizeKeeps(Unparse(q));
    SplitSchemeOf(q.scheme, tail, "");
  }

  /** Removing the fragment never changes the scheme that `urlparse` finds. */
  lemma DefragKeepsScheme(url: string)
    requires HasScheme(Sanitize(url))
    ensures Parse(Defrag(url), "").scheme == Parse(url, "").scheme
  {
    if '#' in url {
      UnparseKeepsScheme(Parse(url, "").(fragment := ""));
    }
  }

  /** `filter(None, ss)`: the non-empty strings of `ss`, in order. */
  function NonEmpty(ss: seq<string>): (r: seq<string>)
    ensures forall k :: 0 <= k < |r| ==> r[k] != ""
    ensures |r| <= |ss|
  {
    if ss == [] then [] else (if ss[0] == "" then [] else [ss[0]]) + NonEmpty(ss[1..])
  }

  /** `segments[1:-1] = filter(None, segments[1:-1])`: drop empty inner segments. */
  function DropEmptyInner(segs: seq<string>): (r: seq<string>)
    requires |segs| >= 1
    ensures 1 <= |r| <= |segs|
    ensures r[0] == segs[0] && r[|r| - 1] == segs[|segs| - 1]
    ensures forall k :: 0 < k < |r| - 1 ==> r[k] != ""
  {
    if |segs| < 2 then segs else [segs[0]] + NonEmpty(segs[1..|segs| - 1]) + [segs[|segs| - 1]]
  }

  /** The dot-segment loop of `urljoin`: ".." pops the last resolved segment (if any),
      "." is skipped, anything else is appended (section 5.2.4 of RFC 3986). */
  function RemoveDots(segs: seq<string>, acc: seq<string>): (r: seq<string>)
    ensures (forall k :: 0 <= k < |acc| ==> acc[k] != "." && acc[k] != "..") ==>
            forall k :: 0 <= k < |r| ==> r[k] != "." && r[k] != ".."
    ensures |r| <= |acc| + |segs|
    decreases |segs|
  {
    if segs == [] then acc
    else if segs[0] == ".." then RemoveDots(segs[1..], if acc == [] then [] else acc[..|acc| - 1])
    else if segs[0] == "." then RemoveDots(segs[1..], acc)
    else RemoveDots(segs[1..], acc + [segs[0]])
  }

  /** The path `urljoin` builds for a reference with a non-empty path or parameters:
      an absolute path replaces the base path; a relative one is appended to the base
      path's directory; dot segments are then resolved; an empty result becomes "/". */
  function MergePath(bpath: string, path: string): (r: string)
    ensures r != ""
  {
    var baseParts := Split(bpath, '/');
    var baseDir := if baseParts[|baseParts| - 1] != "" then baseParts[..|baseParts| - 1] else baseParts;
    var segments := if StartsWith(path, "/") then Split(path, '/') else DropEmptyInner(baseDir + Split(path, '/'));
    var resolved := RemoveDots(segments, []) + (if segments[|segments| - 1] in {".", ".."} then [""] else []);
    var joined := JoinWith(resolved, "/");
    if joined == "" then "/" else joined
  }

  /** `urljoin(base, url)`: resolve `url` against `base` (section 5.2 of RFC 3986 as Python does it). */
  function Join(base: string, url: string): (r: string)
    ensures base == "" ==> r == url
    ensures base != "" && url == "" ==> r == base
    ensures (base != "" && url != "" && HasScheme(Sanitize(url)) &&
             (!UsesRelative(Parse(url, "").scheme) || Parse(url, "").scheme != Parse(base, "").scheme)) ==> r == url
  {
    if base == "" then url
    else if url == "" then base
    else
      var bp := Parse(base, "");
      var p := Parse(url, bp.scheme);
      if p.scheme != bp.scheme || !UsesRelative(p.scheme) then url
      else if UsesNetloc(p.scheme) && p.netloc != "" then Unparse(p)
      else
        var netloc := if UsesNetloc(p.scheme) then bp.netloc else p.netloc;
        if p.path == "" && p.params == "" then
          Unparse(Parts(p.scheme, netloc, bp.path, bp.params, if p.query != "" then p.query else bp.query, p.fragment))
        else
          Unparse(Parts(p.scheme, netloc, MergePath(bp.path, p.path), p.params, p.query, p.fragment))
  }
}
