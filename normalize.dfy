/** `normalize_url` (internal_links.py lines 12-48): the canonical form under which the crawler
    compares, stores and queues URLs. It is a simplified form of the scheme-based normalisation of
    section 6.2.3 of RFC 3986: fragment removed, scheme defaulted to https, authority lower-cased,
    default port dropped, trailing '/' of the path dropped, parameters dropped. */
module Normalize {
  import opened Wrappers
  import opened Strings
  import opened UrlParse

  /** Membership in `IGNORED_SCHEMES` (line 10). */
  predicate IgnoredScheme(scheme: string)
  {
    scheme in {"mailto", "javascript", "tel", "data", ""}
  }

  /** The string `normalize_url` parses: `raw` joined to a non-empty base (line 20-21), with its
      fragment removed (line 24). An empty base is Python's falsy `base_for_join`. */
  function Prepared(raw: string, base: string): (r: string)
    ensures '#' !in r
  {
    Defrag(if base != "" then Join(base, raw) else raw)
  }

  predicate IsDefaultPort(scheme: string, port: string)
  {
    (scheme == "http" && port == "80") || (scheme == "https" && port == "443")
  }

  /** Lines 36-39: the netloc is split at its first ':'; the host alone is kept when what follows
      is the scheme's default port. */
  function StripDefaultPort(scheme: string, netloc: string): (r: string)
    ensures r == netloc || (':' !in r && netloc == r + ":" + (if scheme == "http" then "80" else "443"))
    ensures forall c :: c in r ==> c in netloc
    ensures IsLowerCase(netloc) ==> IsLowerCase(r)
    ensures r != netloc <==> ':' in netloc && IsDefaultPort(scheme, netloc[Find(netloc, ':') + 1..])
  {
    if ':' in netloc then
      var hp := SplitOnce(netloc, ':');
      assert forall k :: 0 <= k < |hp.0| ==> hp.0[k] == netloc[k];
      if IsDefaultPort(scheme, hp.1) then hp.0 else netloc
    else netloc
  }

  /** Stripping the default port a second time changes nothing. */
  lemma StripDefaultPortIdempotent(scheme: string, netloc: string)
    ensures StripDefaultPort(scheme, StripDefaultPort(scheme, netloc)) == StripDefaultPort(scheme, netloc)
  {
    var r := StripDefaultPort(scheme, netloc);
    if r != netloc {
      assert ':' !in r;
    }
  }

  /** Lines 41-44: an empty path becomes "/"; any other path but "/" loses all trailing '/'. */
  function NormalPath(path: string): (r: string)
    ensures path == "" ==> r == "/"
    ensures path != "" ==> |r| <= |path| && r == path[..|r|] && forall k :: |r| <= k < |path| ==> path[k] == '/'
    ensures r == "/" || r == "" || r[|r| - 1] != '/'
    ensures r == "" <==> |path| >= 2 && forall k :: 0 <= k < |path| ==> path[k] == '/'
  {
    var p := if path == "" then "/" else path;
    if p != "/" then RStrip(p, '/') else p
  }

  /** What `urlparse` guarantees of the components it returns when no default scheme is given. */
  predicate IsParsed(p: Parts)
  {
    && (p.scheme == "" || (IsSchemeText(p.scheme) && IsLowerCase(p.scheme)))
    && '/' !in p.netloc && '?' !in p.netloc && '#' !in p.netloc && NoUnsafe(p.netloc)
    && '?' !in p.path && '#' !in p.path && NoUnsafe(p.path)
    && '#' !in p.query && NoUnsafe(p.query)
  }

  /** Line 26: the parse of the joined, fragment-free URL. */
  function ParsedFor(raw: string, base: string): (p: Parts)
    ensures IsParsed(p)
  {
    Parse(Prepared(raw, base), "")
  }

  /** Lines 28-46 on the parsed components: reject a scheme other than http/https, then build
      the components handed to `urlunparse`. */
  function NormalOf(p: Parts): (r: Option<Parts>)
    requires IsParsed(p)
    ensures r.None? <==> p.scheme != "" && p.scheme !in {"http", "https"}
    ensures r.Some? ==>
            var n := r.value;
            && n.scheme == (if p.scheme == "" then "https" else p.scheme)
            && n.scheme in {"http", "https"}
            && n.netloc == StripDefaultPort(n.scheme, Lower(p.netloc))
            && IsLowerCase(n.netloc)
            && n.path == NormalPath(p.path)
            && n.params == "" && n.query == p.query && n.fragment == ""
  {
    assert Lower(p.scheme) == p.scheme;
    assert IsLowerCase(Lower(p.netloc));
    if p.scheme != "" && Lower(p.scheme) !in {"http", "https"} then None
    else
      var scheme := if p.scheme != "" then p.scheme else "https";
      var netloc := StripDefaultPort(scheme, Lower(p.netloc));
      Some(p.(scheme := scheme, netloc := netloc, path := NormalPath(p.path), params := "", fragment := ""))
  }

  /** The components of `normalize_url(raw, base)`, or None. */
  function NormalParts(raw: string, base: string): Option<Parts>
  {
    NormalOf(ParsedFor(raw, base))
  }

  /** `normalize_url(raw_url, base_for_join)`. */
  function NormalizeUrl(raw: string, base: string): (r: Option<string>)
    ensures r.None? <==> var p := ParsedFor(raw, base); p.scheme != "" && p.scheme !in {"http", "https"}
    ensures r.Some? ==> '#' !in r.value
    ensures r.Some? ==> StartsWith(r.value, "http://") || StartsWith(r.value, "https://")
  {
    match NormalParts(raw, base)
    case None => None
    case Some(n) =>
      NormalOfClean(ParsedFor(raw, base));
      HierOfWebScheme(n);
      Some(Unparse(n))
  }

  /** The normalised components hold no '#', so neither does anything `Unparse` makes of them. */
  lemma NormalOfClean(p: Parts)
    requires IsParsed(p) && NormalOf(p).Some?
    ensures NoHash(NormalOf(p).value)
  {
    var n := NormalOf(p).value;
    LowerKeepsOthers(p.netloc, '#');
    assert '#' !in n.scheme;
    assert '#' !in n.netloc;
    assert '#' !in n.path by {
      if p.path != "" {
        assert forall k :: 0 <= k < |n.path| ==> n.path[k] == p.path[k];
      }
    }
  }

  /** With a scheme that uses an authority, `urlunparse` always writes "//" after "scheme:". */
  lemma HierOfWebScheme(n: Parts)
    requires n.scheme in {"http", "https"}
    ensures StartsWith(Unparse(n), "http://") || StartsWith(Unparse(n), "https://")
  {
    var h := Hier(n);
    assert StartsWith(h, "//");
    var u := Unparse(n);
    assert u == n.scheme + ":" + (h + QueryPart(n.query) + FragmentPart(n.fragment));
    if n.scheme == "http" {
      assert u[..7] == "http://";
    } else {
      assert u[..8] == "https://";
    }
  }

  /** A string that `normalize_url` maps to itself: `Unparse` of well-formed components that are
      already lower-cased, port-stripped and path-normalised. */
  lemma NormalFixpoint(m: Parts)
    requires WellFormed(m) && m.fragment == "" && IsLowerCase(m.netloc)
    requires StripDefaultPort(m.scheme, m.netloc) == m.netloc && NormalPath(m.path) == m.path
    ensures NormalParts(Unparse(m), "") == Some(m)
    ensures NormalizeUrl(Unparse(m), "") == Some(Unparse(m))
  {
    var s := Unparse(m);
    assert '#' !in s;
    assert Prepared(s, "") == s;
    ParseUnparse(m);
    assert ParsedFor(s, "") == m;
    assert Lower(m.netloc) == m.netloc;
  }

  /** Components `Unparse` writes so that `Parse` reads them back are components `urlparse` returns. */
  lemma WellFormedIsParsed(p: Parts)
    requires WellFormed(p)
    ensures IsParsed(p) && IsParsed(p.(fragment := ""))
  {
    if p.scheme == "http" {
      assert IsSchemeText(p.scheme) && IsLowerCase(p.scheme);
    } else {
      assert IsSchemeText(p.scheme) && IsLowerCase(p.scheme);
    }
  }

  /** Normalising the string written from well-formed components normalises those components with
      their fragment dropped: `urldefrag` reparses and rewrites the URL, and `urlparse` then reads
      back exactly what was written. */
  lemma NormalizeWellFormed(p: Parts)
    requires WellFormed(p)
    ensures IsParsed(p.(fragment := ""))
    ensures NormalParts(Unparse(p), "") == NormalOf(p.(fragment := ""))
  {
    var q := p.(fragment := "");
    WellFormedIsParsed(p);
    DefragWritten(p);
    ParseUnparse(q);
    assert ParsedFor(Unparse(p), "") == q;
  }

  /** `urldefrag` of what `Unparse` writes for well-formed components is what it writes for
      the same components without their fragment. */
  lemma DefragWritten(p: Parts)
    requires WellFormed(p)
    ensures Prepared(Unparse(p), "") == Unparse(p.(fragment := ""))
  {
    var s := Unparse(p);
    UnparseWellFormed(p);
    if p.fragment == "" {
      assert p.(fragment := "") == p;
      assert '#' !in s;
    } else {
      assert s[|s| - |p.fragment| - 1] == '#';
      ParseUnparse(p);
    }
  }

  /** How `urlunparse` writes well-formed components: "scheme://netloc", then the path, then
      "?query" and "#fragment" when present. */
  function Written(p: Parts): string
  {
    p.scheme + ":" + ("//" + p.netloc + p.path + QueryPart(p.query) + FragmentPart(p.fragment))
  }

  /** The path `NormalPath` makes of a path that starts with '/' (or is empty) starts with '/'
      (or is empty), and does not start with "//" unless the original did. */
  lemma NormalPathShape(path: string)
    requires path == "" || path[0] == '/'
    ensures var r := NormalPath(path); r == "" || r[0] == '/'
    ensures StartsWith(NormalPath(path), "//") ==> StartsWith(path, "//")
  {
    var r := NormalPath(path);
    if path != "" && |r| >= 2 {
      assert r[..2] == path[..2];
    }
  }

  /** What `normalize_url` makes of any http(s) URL whose components read back as written:
      the fragment goes, the authority is lower-cased and loses its default port, the path
      loses its trailing '/' (or becomes "/" when empty), and the query stays. */
  lemma NormalizeWritten(p: Parts)
    requires WellFormed(p)
    requires !(StripDefaultPort(p.scheme, Lower(p.netloc)) == "" && StartsWith(p.path, "//"))
    ensures NormalizeUrl(Written(p), "")
         == Some(p.scheme + "://" + StripDefaultPort(p.scheme, Lower(p.netloc)) + NormalPath(p.path) + QueryPart(p.query))
  {
    var s := Written(p);
    assert Unparse(p) == s by { UnparseWellFormed(p); }
    NormalizeWellFormed(p);
    var n := NormalOf(p.(fragment := "")).value;
    assert NormalizeUrl(s, "") == Some(Unparse(n));
    var netloc := StripDefaultPort(p.scheme, Lower(p.netloc));
    var path := NormalPath(p.path);
    assert n.scheme == p.scheme && n.netloc == netloc && n.path == path && n.params == "";
    assert n.query == p.query && n.fragment == "";
    NormalPathShape(p.path);
    var w := p.scheme + "://" + netloc + path + QueryPart(p.query);
    assert Unparse(n) == w + FragmentPart(n.fragment) by { UnparseWebForm(n); }
    assert w + "" == w;
  }

  /** No ';' after the last '/' of a path (anywhere, when it has no '/'): reparsing it splits
      off no parameters. */
  predicate ParamFreeLastSegment(path: string)
  {
    if '/' in path then ';' !in path[LastIndex(path, '/')..] else ';' !in path
  }

  /** `urlunparse` writes a path that lacks its leading '/' as if it had one. */
  lemma LeadingSlash(path: string)
    requires path != "" && path[0] != '/' && ParamFreeLastSegment(path)
    ensures ParamFreeLastSegment("/" + path)
  {
    var q := "/" + path;
    if '/' in path {
      var j := LastIndex(path, '/');
      assert q[j + 1] == '/';
      forall k | j + 1 < k < |q| ensures q[k] != '/' { assert q[k] == path[k - 1]; }
      LastIndexIs(q, '/', j + 1);
      assert q[j + 1..] == path[j..];
    } else {
      forall k | 0 < k < |q| ensures q[k] != '/' { assert q[k] == path[k - 1]; }
      LastIndexIs(q, '/', 0);
      assert q[0..] == q;
    }
  }

  /** What the normalised components look like after `Unparse` and a reparse: the path gains the
      leading '/' that `urlunparse` writes in front of it. */
  function Reparsed(n: Parts): Parts
    requires n.path != ""
  {
    n.(path := if n.path[0] == '/' then n.path else "/" + n.path)
  }

  /** The three conditions under which normalisation is idempotent. */
  predicate Reparsable(n: Parts)
  {
    n.path != "" && !(n.netloc == "" && StartsWith(n.path, "//")) && ParamFreeLastSegment(n.path)
  }

  lemma ReparsedWellFormed(p: Parts)
    requires IsParsed(p) && NormalOf(p).Some? && Reparsable(NormalOf(p).value)
    ensures WellFormed(Reparsed(NormalOf(p).value))
    ensures Unparse(Reparsed(NormalOf(p).value)) == Unparse(NormalOf(p).value)
  {
    var n := NormalOf(p).value;
    NormalNetlocSafe(p);
    NormalPathSafe(p.path, n.path);
    if n.path[0] != '/' {
      LeadingSlash(n.path);
      SlashWritten(n);
    }
  }

  /** Lower-casing keeps the authority free of delimiters and unsafe characters. */
  lemma NormalNetlocSafe(p: Parts)
    requires IsParsed(p) && NormalOf(p).Some?
    ensures var n := NormalOf(p).value;
            '/' !in n.netloc && '?' !in n.netloc && '#' !in n.netloc && NoUnsafe(n.netloc)
  {
    LowerKeepsOthers(p.netloc, '/');
    LowerKeepsOthers(p.netloc, '?');
    LowerKeepsOthers(p.netloc, '#');
    LowerKeepsOthers(p.netloc, '\t');
    LowerKeepsOthers(p.netloc, '\r');
    LowerKeepsOthers(p.netloc, '\n');
  }

  /** `NormalPath` adds no character but '/', so the path keeps the parse's guarantees. */
  lemma NormalPathSafe(path: string, r: string)
    requires '?' !in path && '#' !in path && NoUnsafe(path)
    requires r == NormalPath(path) && r != ""
    ensures var m := if r[0] == '/' then r else "/" + r;
            '?' !in m && '#' !in m && NoUnsafe(m)
  {
    assert forall c :: c in r ==> c in path || c == '/' by {
      if path != "" {
        assert forall k :: 0 <= k < |r| ==> r[k] == path[k];
      }
    }
  }

  /** A path without its leading '/' is written with one, exactly as the reparsed path is. */
  lemma SlashWritten(n: Parts)
    requires n.scheme in {"http", "https"} && n.params == "" && n.path != "" && n.path[0] != '/'
    ensures !StartsWith(Reparsed(n).path, "//")
    ensures Unparse(Reparsed(n)) == Unparse(n)
  {
    var m := Reparsed(n);
    assert m.path[1] == n.path[0];
    assert !StartsWith(m.path, "//") by {
      if |m.path| >= 2 { assert m.path[..2][1] == m.path[1]; }
    }
    assert Hier(n) == "//" + n.netloc + m.path;
    assert Hier(m) == "//" + n.netloc + m.path;
  }

  lemma NormalOfIdempotent(p: Parts)
    requires IsParsed(p) && NormalOf(p).Some? && Reparsable(NormalOf(p).value)
    ensures NormalizeUrl(Unparse(NormalOf(p).value), "") == Some(Unparse(NormalOf(p).value))
  {
    var n := NormalOf(p).value;
    var m := Reparsed(n);
    ReparsedWellFormed(p);
    StripDefaultPortIdempotent(n.scheme, Lower(p.netloc));
    SlashedPathNormal(n.path);
    NormalFixpoint(m);
  }

  /** A normalised path, with a leading '/' added when it lacks one, is left alone by `NormalPath`. */
  lemma SlashedPathNormal(r: string)
    requires r != "" && (r == "/" || r[|r| - 1] != '/')
    ensures var q := if r[0] == '/' then r else "/" + r; NormalPath(q) == q
  {
    var q := if r[0] == '/' then r else "/" + r;
    assert q == "/" || q[|q| - 1] != '/';
  }

  /** Normalising a normalised URL again gives the same string, except in three cases the
      code does not handle (each shown below): a path made only of slashes, a ';' in the last
      path segment, and a path starting with "//" under an empty netloc. */
  lemma NormalizeIdempotent(raw: string, base: string)
    requires NormalParts(raw, base).Some? && Reparsable(NormalParts(raw, base).value)
    ensures NormalizeUrl(raw, base).Some?
    ensures NormalizeUrl(NormalizeUrl(raw, base).value, "") == NormalizeUrl(raw, base)
  {
    var p := ParsedFor(raw, base);
    assert NormalizeUrl(raw, base) == Some(Unparse(NormalOf(p).value));
    NormalOfIdempotent(p);
  }

  /** None of the ignored schemes is one `urljoin` resolves against, nor a web scheme. */
  lemma IgnoredSchemesAreOpaque(scheme: string)
    requires IgnoredScheme(scheme) && scheme != ""
    ensures !UsesRelative(scheme) && scheme !in {"http", "https"}
  {
    if scheme == "mailto" {
    } else if scheme == "javascript" {
    } else if scheme == "tel" {
    } else {
      assert scheme == "data";
    }
  }

  /** The check of line 79 is redundant: a raw URL whose own scheme is in `IGNORED_SCHEMES`
      is rejected by `normalize_url` anyway, whatever the base. */
  lemma IgnoredSchemeNeverNormalizes(raw: string, base: string)
    requires Parse(raw, "").scheme != "" && IgnoredScheme(Lower(Parse(raw, "").scheme))
    ensures NormalizeUrl(raw, base) == None
  {
    var p := Parse(raw, "");
    assert HasScheme(Sanitize(raw));
    assert Lower(p.scheme) == p.scheme;
    IgnoredSchemesAreOpaque(p.scheme);
    assert Prepared(raw, base) == Defrag(raw) by {
      assert raw != "";
      assert base != "" ==> Join(base, raw) == raw;
    }
    assert ParsedFor(raw, base).scheme == p.scheme by {
      DefragKeepsScheme(raw);
    }
  }
}
