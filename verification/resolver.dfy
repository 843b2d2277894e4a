/** Favicon URI resolution: turning a `<link rel="icon">` href into an
    absolute URI, and choosing between that link and the well-known
    `/favicon.ico` location. */
module Resolver {
  import opened Wrappers
  import opened Strings
  import PosixPath

  /** The three components of a URI that the tool reads after `urlparse`. */
  datatype Uri = Uri(scheme: string, netloc: string, path: string)

  /** The only HTTP status the tool accepts (`requests.codes.ok`). */
  const StatusOk: int := 200

  /** The four shapes of href the normalisation distinguishes, checked in this order. */
  datatype HrefKind = ProtocolRelative | DomainAbsolute | AlreadyHttp | Relative

  function Classify(href: string): (k: HrefKind)
    ensures k == ProtocolRelative <==> StartsWith(href, "//")
    ensures k == DomainAbsolute <==> StartsWith(href, "/") && !StartsWith(href, "//")
    ensures k == AlreadyHttp <==> !StartsWith(href, "/") && StartsWith(href, "http")
    ensures k == Relative <==> !StartsWith(href, "/") && !StartsWith(href, "http")
  {
    if StartsWith(href, "//") then ProtocolRelative
    else if StartsWith(href, "/") then DomainAbsolute
    else if StartsWith(href, "http") then AlreadyHttp
    else Relative
  }

  /** `scheme://netloc`, the prefix every rebuilt URI starts with. */
  function Origin(base: Uri): string
  {
    base.scheme + "://" + base.netloc
  }

  /** The href normalisation of `get_favicon_uri_from_link`: plain string
      concatenation against the (post-redirect) page URI. The relative case
      joins the directory part of the page path with an extra slash on each
      side, exactly as the tool does. */
  function NormalizeHref(base: Uri, href: string): (r: string)
    ensures EndsWith(r, href)
    ensures |r| > 0
    ensures Classify(href) == AlreadyHttp <==> r == href
    ensures Classify(href) == ProtocolRelative ==> r == base.scheme + ":" + href
    ensures Classify(href) == DomainAbsolute ==> r == Origin(base) + href
    ensures Classify(href) == Relative ==>
              r == Origin(base) + "/" + PosixPath.Split(base.path).head + "/" + href
  {
    match Classify(href)
    case ProtocolRelative => base.scheme + ":" + href
    case DomainAbsolute => Origin(base) + href
    case AlreadyHttp => href
    case Relative =>
      var dir := PosixPath.Split(base.path).head;
      Origin(base) + "/" + dir + "/" + href
  }

  /** `get_favicon_uri_from_link` once the HTML parser has looked for a
      `<link rel="icon">` element: `href` is its `href` attribute, or None when
      there is no such element or it has no `href`. */
  function FaviconFromLink(base: Uri, href: Option<string>): (r: Option<string>)
    ensures r.Some? <==> href.Some?
    ensures r.Some? ==> |r.value| > 0 && EndsWith(r.value, href.value)
    ensures r.Some? ==> r.value == NormalizeHref(base, href.value)
  {
    match href
    case None => None
    case Some(h) => Some(NormalizeHref(base, h))
  }

  /** The well-known fallback location `scheme://netloc/favicon.ico`. */
  function WellKnown(page: Uri): string
  {
    Origin(page) + "/favicon.ico"
  }

  /** What the network and the HTML parser report while resolving one page:
      the status of the GET on the page, the URI the GET ended on after
      redirects, the href of its icon link, and the status of the HEAD on the
      well-known location. */
  datatype Observations = Observations(
    pageStatus: int,
    finalUri: Uri,
    href: Option<string>,
    headStatus: int)

  /** True when the page GET succeeded and its HTML names an icon. */
  predicate LinkFound(obs: Observations)
  {
    obs.pageStatus == StatusOk && obs.href.Some?
  }

  /** `get_favicon_uri`: the link-derived URI wins (an empty string counts as
      not found, as Python's truthiness test does); otherwise the well-known
      location if its HEAD succeeded; otherwise nothing. */
  function Resolve(page: Uri, obs: Observations): (r: Option<string>)
    ensures LinkFound(obs) ==> r == Some(NormalizeHref(obs.finalUri, obs.href.value))
    ensures !LinkFound(obs) && obs.headStatus == StatusOk ==> r == Some(WellKnown(page))
    ensures !LinkFound(obs) && obs.headStatus != StatusOk ==> r == None
  {
    var fromLink := if obs.pageStatus == StatusOk then FaviconFromLink(obs.finalUri, obs.href) else None;
    if fromLink.Some? && fromLink.value != [] then fromLink
    else if obs.headStatus == StatusOk then Some(WellKnown(page))
    else None
  }

  /** Resolution fails exactly when there is no icon link and the HEAD on the
      well-known location does not succeed. */
  lemma ResolveNoneIff(page: Uri, obs: Observations)
    ensures Resolve(page, obs) == None <==> !LinkFound(obs) && obs.headStatus != StatusOk
  {
  }

  /** When the page names an icon, the HEAD outcome plays no part. */
  lemma LinkIgnoresHead(page: Uri, obs: Observations, headStatus: int)
    requires LinkFound(obs)
    ensures Resolve(page, obs) == Resolve(page, obs.(headStatus := headStatus))
  {
  }

  /** When the page GET fails, whatever the body might have contained is ignored. */
  lemma FailedPageIgnoresHref(page: Uri, obs: Observations, href: Option<string>)
    requires obs.pageStatus != StatusOk
    ensures Resolve(page, obs) == Resolve(page, obs.(href := href))
  {
  }

  /** For an `http`/`https` page every branch yields a URI that starts with
      `http`, which the normalisation then leaves alone: it is idempotent. */
  lemma NormalizeHttpBase(base: Uri, href: string)
    requires StartsWith(base.scheme, "http")
    ensures StartsWith(NormalizeHref(base, href), "http")
    ensures NormalizeHref(base, NormalizeHref(base, href)) == NormalizeHref(base, href)
  {
    var r := NormalizeHref(base, href);
    assert StartsWith(r, "http") by {
      if Classify(href) != AlreadyHttp {
        assert r[..|base.scheme|] == base.scheme;
        assert r[..4] == base.scheme[..4];
      }
    }
    assert Classify(r) == AlreadyHttp by {
      assert r[0] == r[..4][0] == 'h';
    }
  }

  /** The relative join doubles the slash after the host whenever the page
      path is absolute or has no slash at all (an empty path included): `/a/b` with `i.png` gives
      `scheme://netloc//a/i.png`, and the empty path gives `scheme://netloc//i.png`. */
  lemma RelativeDoublesSlash(base: Uri, href: string)
    requires Classify(href) == Relative
    requires StartsWith(base.path, "/") || '/' !in base.path
    ensures StartsWith(NormalizeHref(base, href), Origin(base) + "//")
  {
    var dir := PosixPath.Split(base.path).head;
    PosixPath.SplitHeadLeadingSlash(base.path);
    assert NormalizeHref(base, href) == Origin(base) + "/" + dir + "/" + href;
    DoubledSlashPrefix(Origin(base), dir, href);
  }

  /** Joining with a slash on both sides of a directory that is empty or
      starts with a slash puts two slashes right after the origin. */
  lemma DoubledSlashPrefix(o: string, dir: string, href: string)
    requires dir == [] || dir[0] == '/'
    ensures StartsWith(o + "/" + dir + "/" + href, o + "//")
  {
    var r := o + "/" + dir + "/" + href;
    assert r[|o|] == '/' && r[|o| + 1] == '/';
    assert r[..|o| + 2] == o + "//";
  }

  lemma DomainAbsoluteExample()
    ensures NormalizeHref(Uri("http", "x.com", "/a/b"), "/i.png") == "http://x.com/i.png"
  {
    assert Classify("/i.png") == DomainAbsolute by {
      assert "/i.png"[..2] != "//" by { assert "/i.png"[1] == 'i'; }
    }
  }

  lemma ProtocolRelativeExample()
    ensures NormalizeHref(Uri("https", "x.com", "/a/b"), "//cdn.com/i.png") == "https://cdn.com/i.png"
  {
    assert Classify("//cdn.com/i.png") == ProtocolRelative by {
      assert "//cdn.com/i.png"[..2] == "//";
    }
    assert "https" + ":" + "//cdn.com/i.png" == "https://cdn.com/i.png";
  }

  /** The relative example at `http://x.com/a/b`: the directory `/a` is joined
      with a leading slash, giving a doubled slash after the host. */
  // The literals are parameters so that the solver does not unfold them at every step.
  lemma RelativeExample(base: Uri, href: string)
    requires base == Uri("http", "x.com", "/a/b") && href == "i.png"
    ensures NormalizeHref(base, href) == "http://x.com//a/i.png"
  {
    calc {
      NormalizeHref(base, href);
    == { assert Classify(href) == Relative by { assert href[0] == 'i'; } }
      Origin(base) + "/" + PosixPath.Split(base.path).head + "/" + href;
    == { PosixPath.SplitExample(); }
      "http://x.com" + "/" + "/a" + "/" + "i.png";
    }
  }

  /** At the root path `/` the head of the split is `/` itself, so the
      relative join triples the slash after the host: `http://x.com/` with
      `i.png` gives `http://x.com///i.png`. */
  lemma RootPathTriplesSlash(base: Uri, href: string)
    requires Classify(href) == Relative && base.path == "/"
    ensures NormalizeHref(base, href) == Origin(base) + "///" + href
  {
    PosixPath.SplitRootExample();
  }

  /** A base URI with an empty path, such as `urlparse` gives for
      `http://x.com`, has an empty head, so the relative join doubles the
      slash after the host: `i.png` gives `http://x.com//i.png`. The tool
      itself passes the final response URL, whose path the HTTP library
      makes at least `/` (see `RootPathTriplesSlash`); the empty path arises
      only when the link normalisation is called directly. */
  lemma EmptyPathDoublesSlash(base: Uri, href: string)
    requires Classify(href) == Relative && base.path == []
    ensures NormalizeHref(base, href) == Origin(base) + "/" + "/" + href
  {
    var o, dir := Origin(base), PosixPath.Split(base.path).head;
    assert dir == [];
    assert NormalizeHref(base, href) == o + "/" + dir + "/" + href;
    assert o + "/" + dir == o + "/";
  }

  /** An href that merely starts with the letters `http` is taken as absolute. */
  lemma HttpLookalikeExample()
    ensures NormalizeHref(Uri("http", "x.com", "/"), "httpicon.png") == "httpicon.png"
  {
    assert Classify("httpicon.png") == AlreadyHttp by {
      assert "httpicon.png"[0] == 'h';
      assert "httpicon.png"[..4] == "http";
    }
  }
}
