/** The URL normalizer of `ClaudeCodeSDKCollector.normalize_url`
    (main.py:74-106), over the six components `urlparse` yields. */
module Urls {

  import opened Wrappers
  import opened Text

  /** The 6-tuple of `urllib.parse.urlparse`. */
  datatype Url = Url(scheme: string, netloc: string, path: string, params: string, query: string, fragment: string)

  /** The schemes `urlunparse` writes with a `//` authority even when the host is empty. */
  predicate UsesNetloc(scheme: string)
  {
    ListedFrom(scheme, 0)
  }

  /** The scheme is entry k or a later one of the list. */
  predicate ListedFrom(scheme: string, k: nat)
    decreases 25 - k
  {
    k < 25 && (NetlocScheme(k) == scheme || ListedFrom(scheme, k + 1))
  }

  /** Entry k of the scheme list. */
  function NetlocScheme(k: int): string
  {
    if k == 0 then ""
    else if k == 1 then "ftp"
    else if k == 2 then "http"
    else if k == 3 then "gopher"
    else if k == 4 then "nntp"
    else if k == 5 then "telnet"
    else if k == 6 then "imap"
    else if k == 7 then "wais"
    else if k == 8 then "file"
    else if k == 9 then "mms"
    else if k == 10 then "https"
    else if k == 11 then "shttp"
    else if k == 12 then "snews"
    else if k == 13 then "prospero"
    else if k == 14 then "rtsp"
    else if k == 15 then "rtspu"
    else if k == 16 then "rsync"
    else if k == 17 then "svn"
    else if k == 18 then "svn+ssh"
    else if k == 19 then "sftp"
    else if k == 20 then "nfs"
    else if k == 21 then "git"
    else if k == 22 then "git+ssh"
    else if k == 23 then "ws"
    else "wss"
  }

  /** `urllib.parse.urlunparse` as in CPython up to 3.12.3 (the form in which a non-empty path is given a leading `/`
      and the authority is written whenever the host is set or the scheme uses one). */
  function Unparse(u: Url): string
  {
    var hier := Hierarchical(u.scheme, u.netloc, WithParams(u.path, u.params));
    var withScheme := if u.scheme != "" then u.scheme + ":" + hier else hier;
    WithSuffix(WithSuffix(withScheme, "?", u.query), "#", u.fragment)
  }

  function WithParams(path: string, params: string): string
  {
    if params != "" then path + ";" + params else path
  }

  /** The `//netloc/path` part: written when a host is set, or when the scheme
      uses one and the path does not already start with `//`. */
  function Hierarchical(scheme: string, netloc: string, path: string): string
  {
    if netloc != "" || (scheme != "" && UsesNetloc(scheme) && !StartsWith(path, "//")) then
      "//" + netloc + (if path != "" && path[0] != '/' then "/" + path else path)
    else path
  }

  /** `s + sep + part` when `part` is non-empty. */
  function WithSuffix(s: string, sep: string, part: string): (r: string)
  {
    if part != "" then
      assert (s + sep + part)[..|s|] == s;
      s + sep + part
    else s
  }

  /** `netloc[4:]` when the host starts with `www.`: one prefix only. */
  function StripWww(host: string): string
  {
    if StartsWith(host, "www.") then host[4..] else host
  }

  /** The components of the normalized URL, before `urlunparse`. */
  function NormalizeParts(u: Url): (r: Url)
    ensures r.scheme == "https" && r.fragment == ""
  {
    var host := Lower(u.netloc);
    Url("https", StripWww(host), RStripSlash(u.path), u.params, u.query, "")
  }

  /** The normalized components: https, no fragment, params and query kept, the
      host lower-cased with one leading `www.` removed, the path without its
      trailing slashes. */
  lemma NormalizePartsShape(u: Url)
    ensures var r := NormalizeParts(u);
      && r.params == u.params && r.query == u.query
      && IsLower(r.netloc)
      && (Lower(u.netloc) == r.netloc || Lower(u.netloc) == "www." + r.netloc)
      && (StartsWith(Lower(u.netloc), "www.") <==> Lower(u.netloc) == "www." + r.netloc)
      && !EndsWithSlash(r.path) && SlashPadded(u.path, r.path)
  {
    LowerIsLower(u.netloc);
    var host := Lower(u.netloc);
    assert StartsWith(host, "www.") ==> host == "www." + host[4..];
    if StartsWith(host, "www.") {
      assert host[4..] == StripWww(host);
      LowerIsLower(host[4..]);
    }
  }

  /** `normalize_url` without its error side effect: the normalized string when
      `urlparse` succeeded, else the input unchanged. */
  function Normalized(parsed: Option<Url>, raw: string): string
  {
    match parsed
    case None => raw
    case Some(u) => Unparse(NormalizeParts(u))
  }

  /** a and b differ at most in scheme, letter case of the host, one leading
      `www.` on the host, trailing slashes of the path, and fragment. */
  ghost predicate Variant(a: Url, b: Url)
  {
    var la, lb := Lower(a.netloc), Lower(b.netloc);
    && a.params == b.params
    && a.query == b.query
    && (SlashPadded(a.path, b.path) || SlashPadded(b.path, a.path))
    && (la == lb || (la == "www." + lb && !StartsWith(lb, "www.")) || (lb == "www." + la && !StartsWith(la, "www.")))
  }

  lemma StripWwwOfPrefixed(x: string)
    ensures StripWww("www." + x) == x
  {
    assert ("www." + x)[..4] == "www.";
    assert ("www." + x)[4..] == x;
  }

  /** Two URLs normalize to the same components exactly when they are variants. */
  lemma {:induction false} NormalizeEqualIff(a: Url, b: Url)
    ensures NormalizeParts(a) == NormalizeParts(b) <==> Variant(a, b)
  {
    var la, lb := Lower(a.netloc), Lower(b.netloc);
    NormalizePartsShape(a);
    NormalizePartsShape(b);
    RStripSlashSameIff(a.path, b.path);
    if la == "www." + lb && !StartsWith(lb, "www.") {
      StripWwwOfPrefixed(lb);
    }
    if lb == "www." + la && !StartsWith(la, "www.") {
      StripWwwOfPrefixed(la);
    }
    if NormalizeParts(a) == NormalizeParts(b) {
      var ha, hb := StripWww(la), StripWww(lb);
      assert ha == hb;
      if StartsWith(la, "www.") && StartsWith(lb, "www.") {
        assert la == "www." + ha && lb == "www." + hb;
      } else if StartsWith(la, "www.") {
        assert la == "www." + lb;
      } else if StartsWith(lb, "www.") {
        assert lb == "www." + la;
      }
    }
  }

  /** The example of a mixed-case `www` host over plain http with a trailing
      slash and a fragment. */
  lemma NormalizeExample()
    ensures NormalizeParts(Url("http", "WWW.X.org", "/a/", "", "", "top"))
         == NormalizeParts(Url("https", "x.org", "/a", "", "", ""))
  {
    assert Lower("WWW.X.org") == "www." + "x.org";
    assert Lower("x.org") == "x.org";
    StripWwwOfPrefixed("x.org");
    assert "x.org"[..4] != "www." by { assert "x.org"[0] == 'x'; }
    assert RStripSlash("/a/") == RStripSlash("/a") == "/a";
  }

  /** Normalizing twice is the same as once exactly when the lower-cased host
      does not start with `www.www.`: only one `www.` is stripped per pass. */
  lemma {:induction false} NormalizeIdempotentIff(u: Url)
    ensures NormalizeParts(NormalizeParts(u)) == NormalizeParts(u) <==> !StartsWith(Lower(u.netloc), "www.www.")
  {
    var v := NormalizeParts(u);
    var l := Lower(u.netloc);
    NormalizePartsShape(u);
    NormalizePartsShape(v);
    LowerIsLower(v.netloc);
    assert Lower(v.netloc) == v.netloc;
    assert RStripSlash(v.path) == v.path;
    if StartsWith(l, "www.") {
      assert l == "www." + v.netloc;
      assert StartsWith(l, "www.www.") <==> StartsWith(v.netloc, "www.") by {
        if StartsWith(v.netloc, "www.") {
          assert l[..8] == "www." + v.netloc[..4];
        }
        if StartsWith(l, "www.www.") {
          assert v.netloc[..4] == l[4..8];
        }
      }
      if StartsWith(v.netloc, "www.") {
        assert |NormalizeParts(v).netloc| < |v.netloc|;
      }
    } else {
      assert v.netloc == l;
      StartsWithLonger(l, "www.", "www.");
    }
  }

  lemma StartsWithLonger(s: string, p: string, q: string)
    ensures StartsWith(s, p + q) ==> StartsWith(s, p)
  {
    if StartsWith(s, p + q) {
      assert s[..|p|] == (p + q)[..|p|];
    }
  }

  /** The counterexample to unconditional idempotence. */
  lemma DoubleWwwNotIdempotent()
    ensures NormalizeParts(Url("https", "www.www.x", "", "", "", "")).netloc == "www.x"
    ensures NormalizeParts(NormalizeParts(Url("https", "www.www.x", "", "", "", ""))).netloc == "x"
  {
    var u := Url("https", "www.www.x", "", "", "", "");
    assert Lower("www.www.x") == "www.www.x";
    assert Lower("www.x") == "www.x";
    assert "www.www.x" == "www." + "www.x";
    StripWwwOfPrefixed("www.x");
    assert "www.x" == "www." + "x";
    StripWwwOfPrefixed("x");
  }

  /** A successfully parsed URL normalizes to a string that starts with `https://`. */
  lemma NormalizedIsHttps(u: Url, raw: string)
    ensures StartsWith(Normalized(Some(u), raw), "https://")
  {
    var v := NormalizeParts(u);
    assert NetlocScheme(10) == "https";
    var hier := Hierarchical(v.scheme, v.netloc, WithParams(v.path, v.params));
    assert hier[..2] == "//";
    assert ("https:" + hier)[..8] == "https://";
  }

  /** Normalizing the normalized string gives it back, when the lower-cased host
      does not start with `www.www.` and `urlparse` reads back what `urlunparse`
      wrote; when `urlparse` fails the input comes back unchanged. */
  lemma NormalizedIdempotent(parse: string -> Option<Url>, raw: string)
    requires parse(raw).Some? ==> !StartsWith(Lower(parse(raw).value.netloc), "www.www.")
    requires parse(raw).Some? ==>
      var v := NormalizeParts(parse(raw).value);
      parse(Unparse(v)) == Some(v)
    ensures Normalized(parse(Normalized(parse(raw), raw)), Normalized(parse(raw), raw)) == Normalized(parse(raw), raw)
  {
    if parse(raw).Some? {
      NormalizeIdempotentIff(parse(raw).value);
    }
  }
}
