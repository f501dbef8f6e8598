/** Concrete behaviour of `normalize_url` (internal_links.py lines 12-48): default ports, the
    root path, a trailing slash, a fragment and a `mailto` link, and the URLs on which
    normalising twice does not give the same string as normalising once. */
module NormalizeExamples {
  import opened Wrappers
  import opened Strings
  import opened UrlParse
  import opened Normalize

  predicate HostChar(c: char) { 'a' <= c <= 'z' || '0' <= c <= '9' || c == '.' }

  predicate IsHost(s: string) { s != "" && forall k :: 0 <= k < |s| ==> HostChar(s[k]) }

  predicate IsPort(s: string) { forall k :: 0 <= k < |s| ==> '0' <= s[k] <= '9' }

  /** A path of '/'-separated host characters. */
  predicate IsPlainPath(s: string)
  {
    (s == "" || s[0] == '/') && forall k :: 0 <= k < |s| ==> HostChar(s[k]) || s[k] == '/'
  }

  function Authority(host: string, port: string): string
  {
    if port == "" then host else host + ":" + port
  }

  lemma PortSplit(host: string, port: string)
    requires ':' !in host
    ensures SplitOnce(host + ":" + port, ':') == (host, port)
  {
    var s := host + ":" + port;
    forall k | 0 <= k < |host| ensures s[k] != ':' { assert s[k] == host[k]; }
    FindIs(s, ':', |host|);
    assert s[..|host|] == host;
    assert s[|host| + 1..] == port;
  }

  lemma PlainAuthority(scheme: string, host: string, port: string)
    requires IsHost(host) && IsPort(port)
    ensures var a := Authority(host, port);
            && '/' !in a && '?' !in a && '#' !in a && NoUnsafe(a)
            && StripDefaultPort(scheme, Lower(a))
               == (if port == "" || IsDefaultPort(scheme, port) then host else a)
  {
    var a := Authority(host, port);
    assert forall k :: 0 <= k < |a| ==> HostChar(a[k]) || a[k] == ':';
    LowerOfLowerCase(a);
    if port != "" {
      PortSplit(host, port);
    }
  }

  /** A URL made of an http(s) scheme, a host of letters, digits and dots, an optional port, a
      plain path and a plain fragment normalises to the same URL without the fragment, without
      the scheme's default port and with the path's trailing '/' dropped (or "/" supplied). */
  lemma PlainWellFormed(p: Parts, path: string, fragment: string)
    requires p.scheme in {"http", "https"} && p.netloc != ""
    requires '/' !in p.netloc && '?' !in p.netloc && '#' !in p.netloc && NoUnsafe(p.netloc)
    requires p.path == path && IsPlainPath(path) && p.params == "" && p.query == ""
    requires p.fragment == fragment && forall k :: 0 <= k < |fragment| ==> HostChar(fragment[k])
    ensures WellFormed(p)
  {
    assert '?' !in path && '#' !in path && ';' !in path && NoUnsafe(path) by {
      forall k | 0 <= k < |path| ensures path[k] !in "?#;\t\r\n" { assert HostChar(path[k]) || path[k] == '/'; }
    }
    assert NoUnsafe(fragment) by {
      forall k | 0 <= k < |fragment| ensures fragment[k] !in "\t\r\n" { assert HostChar(fragment[k]); }
    }
  }

  lemma PlainUrlNormalizes(scheme: string, host: string, port: string, path: string, fragment: string)
    requires scheme == "http" || scheme == "https"
    requires IsHost(host) && IsPort(port) && IsPlainPath(path) && forall k :: 0 <= k < |fragment| ==> HostChar(fragment[k])
    ensures NormalizeUrl(scheme + "://" + Authority(host, port) + path + FragmentPart(fragment), "")
         == Some(scheme + "://" + (if port == "" || IsDefaultPort(scheme, port) then host else Authority(host, port))
                 + NormalPath(path))
  {
    var a := Authority(host, port);
    var p := Parts(scheme, a, path, "", "", fragment);
    PlainAuthority(scheme, host, port);
    PlainWellFormed(p, path, fragment);
    assert Written(p) == scheme + "://" + a + path + FragmentPart(fragment) by {
      SchemeJoin(scheme, a, path, FragmentPart(fragment));
    }
    NormalizeWritten(p);
    var w := scheme + "://" + (if port == "" || IsDefaultPort(scheme, port) then host else a) + NormalPath(path);
    assert w + QueryPart("") == w;
  }

  /** "http://x.com:80/p" normalises to "http://x.com/p": port 80 is the http default. */
  lemma HttpDefaultPortStripped()
    ensures NormalizeUrl("http://x.com:80/p", "") == Some("http://x.com/p")
  {
    assert NormalPath("/p") == "/p";
    assert Authority("x.com", "80") == "x.com:80";
    assert "http" + "://" + "x.com:80" + "/p" + FragmentPart("") == "http://x.com:80/p";
    assert "http" + "://" + "x.com" + "/p" == "http://x.com/p";
    PlainUrlNormalizes("http", "x.com", "80", "/p", "");
  }

  /** "https://x.com:443/p" normalises to "https://x.com/p": port 443 is the https default. */
  lemma HttpsDefaultPortStripped()
    ensures NormalizeUrl("https://x.com:443/p", "") == Some("https://x.com/p")
  {
    assert NormalPath("/p") == "/p";
    assert Authority("x.com", "443") == "x.com:443";
    assert "https" + "://" + "x.com:443" + "/p" + FragmentPart("") == "https://x.com:443/p";
    assert "https" + "://" + "x.com" + "/p" == "https://x.com/p";
    PlainUrlNormalizes("https", "x.com", "443", "/p", "");
  }

  /** Only the scheme's own default port goes: "http://x.com:443/p" keeps its port. */
  lemma OtherPortKept()
    ensures NormalizeUrl("http://x.com:443/p", "") == Some("http://x.com:443/p")
  {
    assert NormalPath("/p") == "/p";
    assert Authority("x.com", "443") == "x.com:443";
    assert !IsDefaultPort("http", "443");
    assert "http" + "://" + "x.com:443" + "/p" + FragmentPart("") == "http://x.com:443/p";
    assert "http" + "://" + "x.com:443" + "/p" == "http://x.com:443/p";
    PlainUrlNormalizes("http", "x.com", "443", "/p", "");
  }

  /** The root path is supplied when missing: "https://x.com" normalises to "https://x.com/". */
  lemma RootPathSupplied()
    ensures NormalizeUrl("https://x.com", "") == Some("https://x.com/")
  {
    assert NormalPath("") == "/";
    assert Authority("x.com", "") == "x.com";
    assert "https" + "://" + "x.com" + "" + FragmentPart("") == "https://x.com";
    assert "https" + "://" + "x.com" + "/" == "https://x.com/";
    PlainUrlNormalizes("https", "x.com", "", "", "");
  }

  /** The trailing '/' of any other path is dropped: "https://x.com/a/" normalises to
      "https://x.com/a". */
  lemma TrailingSlashDropped()
    ensures NormalizeUrl("https://x.com/a/", "") == Some("https://x.com/a")
  {
    assert NormalPath("/a/") == "/a";
    assert Authority("x.com", "") == "x.com";
    assert "https" + "://" + "x.com" + "/a/" + FragmentPart("") == "https://x.com/a/";
    assert "https" + "://" + "x.com" + "/a" == "https://x.com/a";
    PlainUrlNormalizes("https", "x.com", "", "/a/", "");
  }

  /** The fragment is removed: "https://x.com/a#frag" and "https://x.com/a" normalise alike. */
  lemma FragmentRemoved()
    ensures NormalizeUrl("https://x.com/a#frag", "") == NormalizeUrl("https://x.com/a", "")
    ensures NormalizeUrl("https://x.com/a", "") == Some("https://x.com/a")
  {
    FragmentDropped();
    PlainKept();
  }

  lemma FragmentDropped()
    ensures NormalizeUrl("https://x.com/a#frag", "") == Some("https://x.com/a")
  {
    assert NormalPath("/a") == "/a";
    assert Authority("x.com", "") == "x.com";
    assert "https" + "://" + "x.com" + "/a" + FragmentPart("frag") == "https://x.com/a#frag";
    assert "https" + "://" + "x.com" + "/a" == "https://x.com/a";
    PlainUrlNormalizes("https", "x.com", "", "/a", "frag");
  }

  lemma PlainKept()
    ensures NormalizeUrl("https://x.com/a", "") == Some("https://x.com/a")
  {
    assert NormalPath("/a") == "/a";
    assert Authority("x.com", "") == "x.com";
    assert "https" + "://" + "x.com" + "/a" + FragmentPart("") == "https://x.com/a";
    assert "https" + "://" + "x.com" + "/a" == "https://x.com/a";
    PlainUrlNormalizes("https", "x.com", "", "/a", "");
  }

  /** A mail link is not a web URL: "mailto:a@b.com" does not normalise. */
  lemma MailtoRejected()
    ensures NormalizeUrl("mailto:a@b.com", "") == None
  {
    assert "mailto" + ":" + "a@b.com" == "mailto:a@b.com";
    assert IsSchemeText("mailto") && IsLowerCase("mailto");
    ParseWithScheme("mailto", "a@b.com");
    assert Lower("mailto") == "mailto" by { LowerOfLowerCase("mailto"); }
    IgnoredSchemeNeverNormalizes("mailto:a@b.com", "");
  }

  /* Normalising twice differs from normalising once in three families of URLs, all following
     from lines 41-46: the trailing-'/' strip of line 44 runs after the root-path rule of
     line 41, and `urlunparse` writes components that `urlparse` then reads back differently. */

  lemma WebSchemeText(scheme: string)
    requires scheme == "http" || scheme == "https"
    ensures IsSchemeText(scheme) && IsLowerCase(scheme) && UsesParams(scheme) && UsesNetloc(scheme)
    ensures '#' !in scheme && NoUnsafe(scheme)
  {
  }

  /** A path made only of '/' loses all of them, root included: "scheme://host//" normalises
      to "scheme://host", which normalises to "scheme://host/". */
  lemma SlashOnlyPathNotIdempotent(scheme: string, host: string)
    requires scheme == "http" || scheme == "https"
    requires IsHost(host)
    ensures NormalizeUrl(scheme + "://" + host + "//", "") == Some(scheme + "://" + host)
    ensures NormalizeUrl(scheme + "://" + host, "") == Some(scheme + "://" + host + "/")
  {
    assert NormalPath("//") == "";
    assert NormalPath("") == "/";
    assert scheme + "://" + host + "//" + FragmentPart("") == scheme + "://" + host + "//";
    assert scheme + "://" + host + "" + FragmentPart("") == scheme + "://" + host;
    assert scheme + "://" + host + "" == scheme + "://" + host;
    PlainUrlNormalizes(scheme, host, "", "//", "");
    PlainUrlNormalizes(scheme, host, "", "", "");
  }

  /** The path "/a;b" of two host-character segments: its only '/' is the first character,
      and `_splitparams` cuts it at the ';'. */
  lemma ParamPath(a: string, b: string)
    requires IsHost(a) && IsHost(b)
    ensures var path := "/" + a + ";" + b;
            && '?' !in path && '#' !in path && NoUnsafe(path) && '/' in path
            && LastIndex(path, '/') == 0 && ';' in path
            && SplitParams(path) == ("/" + a, b)
  {
    var path := "/" + a + ";" + b;
    var i := 1 + |a|;
    assert forall k :: 1 <= k < i ==> path[k] == a[k - 1];
    assert path[i] == ';';
    assert forall k :: i < k < |path| ==> path[k] == b[k - i - 1];
    assert forall k :: 0 < k < |path| ==> path[k] != '/';
    assert forall k :: 0 <= k < |path| ==> HostChar(path[k]) || path[k] == '/' || path[k] == ';';
    LastIndexIs(path, '/', 0);
    assert FindFrom(path, ';', 0) == i;
    assert path[..i] == "/" + a;
    assert path[i + 1..] == b;
  }

  /** `urlparse` of "scheme://host/a;b": the ';' after the last '/' starts the parameters. */
  lemma ParamsSplitOff(scheme: string, host: string, a: string, b: string)
    requires scheme == "http" || scheme == "https"
    requires IsHost(host) && IsHost(a) && IsHost(b)
    ensures Parse(scheme + "://" + host + ("/" + a + ";" + b), "") == Parts(scheme, host, "/" + a, b, "", "")
  {
    var path := "/" + a + ";" + b;
    WebSchemeText(scheme);
    PlainAuthority(scheme, host, "");
    ParamPath(a, b);
    assert PathParams(scheme, path) == ("/" + a, b);
    var rest := "//" + host + path + QueryPart("") + FragmentPart("");
    assert NoUnsafe(rest) by {
      assert NoUnsafe("//");
      NoUnsafeJoin("//", host);
      NoUnsafeJoin("//" + host, path);
      assert rest == "//" + host + path;
    }
    SchemeJoinBare(scheme, host, path);
    ParseWithScheme(scheme, rest);
    SplitRestOf(scheme, host, path, "", "");
  }

  /** The path "/a;b/": its last '/' is its last character, which `NormalPath` removes. */
  lemma ParamPathSlash(a: string, b: string)
    requires IsHost(a) && IsHost(b)
    ensures var path := "/" + a + ";" + b + "/";
            && '?' !in path && '#' !in path && NoUnsafe(path) && '/' in path
            && LastIndex(path, '/') == |path| - 1 && path[|path| - 1..] == "/"
            && NormalPath(path) == "/" + a + ";" + b
  {
    var path := "/" + a + ";" + b + "/";
    var i := 1 + |a|;
    assert forall k :: 1 <= k < i ==> path[k] == a[k - 1];
    assert path[i] == ';';
    assert forall k :: i < k < |path| - 1 ==> path[k] == b[k - i - 1];
    assert forall k :: 0 <= k < |path| ==> HostChar(path[k]) || path[k] == '/' || path[k] == ';';
    LastIndexIs(path, '/', |path| - 1);
    var r := NormalPath(path);
    assert path[|path| - 2] == b[|b| - 1];
    assert |r| == |path| - 1;
  }

  /** A ';' in the last path segment survives the first normalisation as part of the path:
      "scheme://host/a;b/" normalises to "scheme://host/a;b". */
  lemma ParamsInLastSegmentKept(scheme: string, host: string, a: string, b: string)
    requires scheme == "http" || scheme == "https"
    requires IsHost(host) && IsHost(a) && IsHost(b)
    ensures NormalizeUrl(scheme + "://" + host + ("/" + a + ";" + b + "/"), "")
         == Some(scheme + "://" + host + ("/" + a + ";" + b))
  {
    var path := "/" + a + ";" + b + "/";
    WebSchemeText(scheme);
    PlainAuthority(scheme, host, "");
    ParamPathSlash(a, b);
    var p := Parts(scheme, host, path, "", "", "");
    assert WellFormed(p);
    SchemeJoinBare(scheme, host, path);
    NoQuery(scheme + "://" + host + ("/" + a + ";" + b));
    NormalizeWritten(p);
  }

  /** ... and the second normalisation reads it as parameters and drops them:
      "scheme://host/a;b" normalises to "scheme://host/a". */
  lemma ParamsInLastSegmentDropped(scheme: string, host: string, a: string, b: string)
    requires scheme == "http" || scheme == "https"
    requires IsHost(host) && IsHost(a) && IsHost(b)
    ensures NormalizeUrl(scheme + "://" + host + ("/" + a + ";" + b), "") == Some(scheme + "://" + host + ("/" + a))
  {
    var u := scheme + "://" + host + ("/" + a + ";" + b);
    WebSchemeText(scheme);
    PlainAuthority(scheme, host, "");
    assert '#' !in u by {
      ParamPath(a, b);
      assert '#' !in "://";
    }
    assert NormalPath("/" + a) == "/" + a by {
      assert ("/" + a)[|a|] == a[|a| - 1];
    }
    ParamsSplitOff(scheme, host, a, b);
    assert Prepared(u, "") == u;
    var n := Parts(scheme, host, "/" + a, "", "", "");
    assert NormalParts(u, "") == Some(n);
    assert Unparse(n) == scheme + "://" + host + ("/" + a) by {
      UnparseWebForm(n);
      NoQueryNoFragment(scheme + "://" + host + ("/" + a));
    }
  }

  /** Together: a ';' in the last path segment makes normalisation not idempotent. */
  lemma ParamsInLastSegmentNotIdempotent(scheme: string, host: string, a: string, b: string)
    requires scheme == "http" || scheme == "https"
    requires IsHost(host) && IsHost(a) && IsHost(b)
    ensures var once := NormalizeUrl(scheme + "://" + host + ("/" + a + ";" + b + "/"), "");
            once.Some? && NormalizeUrl(once.value, "") != once
  {
    ParamsInLastSegmentKept(scheme, host, a, b);
    ParamsInLastSegmentDropped(scheme, host, a, b);
    var s1 := scheme + "://" + host + ("/" + a + ";" + b);
    var s2 := scheme + "://" + host + ("/" + a);
    assert |s2| < |s1|;
  }

  lemma AuthorityLikePath(scheme: string, host: string)
    ensures (scheme + ":") + ("//" + host) + "" + "" == scheme + "://" + host
  {
    var w := (scheme + ":") + ("//" + host);
    assert w + "" + "" == w;
    ConcatAssoc(scheme + ":", "//", host);
    ConcatAssoc(scheme, ":", "//");
  }

  /** `urlparse` of "scheme:////host": an empty authority, then the path "//host". */
  lemma EmptyAuthorityParsed(scheme: string, host: string)
    requires scheme == "http" || scheme == "https"
    requires IsHost(host)
    ensures Parse(scheme + ":////" + host, "") == Parts(scheme, "", "//" + host, "", "", "")
  {
    WebSchemeText(scheme);
    var path := "//" + host;
    HostPath(scheme, host);
    var rest := "//" + "" + path + QueryPart("") + FragmentPart("");
    EmptyAuthorityText(scheme, host);
    assert NoUnsafe(rest) by {
      NoQueryNoFragment("//" + "" + path);
      NoUnsafeJoin("//" + "", path);
    }
    ParseWithScheme(scheme, rest);
    SplitRestOf(scheme, "", path, "", "");
  }

  /** "//host" is a path without parameters, query, fragment or unsafe characters. */
  lemma HostPath(scheme: string, host: string)
    requires scheme == "http" || scheme == "https"
    requires IsHost(host)
    ensures var path := "//" + host;
            ';' !in path && '?' !in path && '#' !in path && NoUnsafe(path) && PathParams(scheme, path) == (path, "")
  {
    WebSchemeText(scheme);
    var path := "//" + host;
    assert ';' !in path && '?' !in path && '#' !in path && NoUnsafe(path) by {
      forall k | 2 <= k < |path| ensures HostChar(path[k]) { assert path[k] == host[k - 2]; }
    }
  }

  /** The text `urlparse` reads as an empty authority followed by the path "//host": this is
      the layout of "scheme:////host", not what `urlunparse` writes for those parts. */
  lemma EmptyAuthorityText(scheme: string, host: string)
    ensures scheme + ":" + ("//" + "" + ("//" + host) + QueryPart("") + FragmentPart("")) == scheme + ":////" + host
  {
    NoQueryNoFragment("//" + "" + ("//" + host));
    assert "//" + "" + ("//" + host) == "////" + host;
  }

  /** A path starting with "//" under an empty authority is written where the authority goes:
      "scheme:////host" normalises to "scheme://host", which now has an authority and
      normalises to "scheme://host/". */
  lemma EmptyAuthorityNotIdempotent(scheme: string, host: string)
    requires scheme == "http" || scheme == "https"
    requires IsHost(host)
    ensures NormalizeUrl(scheme + ":////" + host, "") == Some(scheme + "://" + host)
    ensures NormalizeUrl(scheme + "://" + host, "") == Some(scheme + "://" + host + "/")
  {
    EmptyAuthorityNormalParts(scheme, host);
    var n := Parts(scheme, "", "//" + host, "", "", "");
    EmptyAuthorityWritten(scheme, host, n);
    SlashOnlyPathNotIdempotent(scheme, host);
  }

  /** The parts `normalize_url` reassembles for "scheme:////host". */
  lemma EmptyAuthorityNormalParts(scheme: string, host: string)
    requires scheme == "http" || scheme == "https"
    requires IsHost(host)
    ensures NormalParts(scheme + ":////" + host, "") == Some(Parts(scheme, "", "//" + host, "", "", ""))
  {
    EmptyAuthorityPrepared(scheme, host);
    EmptyAuthorityKept(scheme, host);
  }

  /** "scheme:////host" has no fragment, so it is parsed as it stands. */
  lemma EmptyAuthorityPrepared(scheme: string, host: string)
    requires scheme == "http" || scheme == "https"
    requires IsHost(host)
    ensures ParsedFor(scheme + ":////" + host, "") == Parts(scheme, "", "//" + host, "", "", "")
  {
    var u := scheme + ":////" + host;
    EmptyAuthorityParsed(scheme, host);
    assert '#' !in u by {
      WebSchemeText(scheme);
      PlainAuthority(scheme, host, "");
    }
    assert Prepared(u, "") == u;
  }

  /** Normalising those components changes none of them. */
  lemma EmptyAuthorityKept(scheme: string, host: string)
    requires scheme == "http" || scheme == "https"
    requires IsHost(host)
    requires IsParsed(Parts(scheme, "", "//" + host, "", "", ""))
    ensures NormalOf(Parts(scheme, "", "//" + host, "", "", "")) == Some(Parts(scheme, "", "//" + host, "", "", ""))
  {
    var path := "//" + host;
    assert path[|path| - 1] != '/';
    assert NormalPath(path) == path;
  }

  /** Those parts are written back as "scheme://host". */
  lemma EmptyAuthorityWritten(scheme: string, host: string, n: Parts)
    requires scheme == "http" || scheme == "https"
    requires n == Parts(scheme, "", "//" + host, "", "", "")
    ensures Unparse(n) == scheme + "://" + host
  {
    var path := "//" + host;
    assert Hier(n) == path;
    assert Unparse(n) == (scheme + ":") + path + "" + "";
    AuthorityLikePath(scheme, host);
  }
}
