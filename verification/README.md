# favicon — a verified model of its string rules

`favicon.py` fetches a web site's favicon: it reads the page, follows a
`<link rel="icon">` element or falls back to `/favicon.ico`, and saves the
image under a name derived from the host. A DokuWiki batch mode reads
`conf/interwiki.local.conf` and fetches one icon per interwiki entry.

Everything around the tool's decisions is HTTP, HTML parsing, image
processing and file I/O. This project models the pure rules in between, as
Dafny functions over `string` (`seq<char>`), and proves what they promise:

- **`Resolver`** — href normalisation from `get_favicon_uri_from_link`:
  protocol-relative, domain-absolute, already-`http` and relative hrefs. It
  also models the precedence in `get_favicon_uri`: the link first, then
  `scheme://netloc/favicon.ico` if its HEAD succeeds, otherwise nothing.
  HTTP outcomes are status codes passed in. The parsed page URI and the href
  found by the HTML parser are inputs too.
- **`Filename`** — `get_filename`: the host with every non-`\w` character
  replaced by `_`, followed by `.png` or the favicon path's extension.
- **`Interwiki`** — config-line recognition: `str.strip()`, then
  a full match of `([-0-9.a-z_]+)\s+(.*)` in ASCII mode. It also
  models the rule that skips an entry whose icon exists unless forced.
- **`Cli`** — the `__main__` URI preparation: an empty URI is an error, and
  `http://` is prepended unless the URI starts with `http`.
- **`Strings`**, **`PosixPath`**, **`Wrappers`** — the Python library
  behaviour these rules rely on: `str.startswith` (`StartsWith`, characterised by `StartsWithIff`), `str.strip`
  (`Strip`), `os.path.split` (`Split`) and `os.path.splitext` (`SplitExt`),
  all POSIX flavour. `RFind` models the `str.rfind` that `os.path.split` and
  `os.path.splitext` use internally; `EndsWith`, `Span` and `SpanBack` are
  helpers of the model, not calls the tool makes. Also `Option` and `Result`.

Three behaviours of the code differ from what a reader of its intent might
expect. The model follows the code:

- A request succeeds only when the status is exactly 200
  (`requests.codes.ok`), not for any 2xx status.
- The relative join is plain concatenation: origin, a slash, the directory
  part of the page path, a slash, the href. So at `http://x.com/a/b`
  the href `i.png` gives `http://x.com//a/i.png`, with a doubled slash, not
  `http://x.com/a/i.png` (`Resolver.RelativeExample`, `Resolver.RelativeDoublesSlash`).
  A base URI with an empty path also gives a doubled slash
  (`Resolver.EmptyPathDoublesSlash`); that arises only when the link
  normalisation is called directly. The root path `/` gives a tripled one,
  `http://x.com///i.png` (`Resolver.RootPathTriplesSlash`). The page
  `http://x.com` reaches the normalisation as the response URL, which the
  HTTP library gives the path `/`, so the tool itself takes this tripled form.
- "Already absolute" means "starts with the four letters `http`". An href
  such as `httpicon.png` is therefore returned unchanged
  (`Resolver.HttpLookalikeExample`). In the same way, a command-line host
  such as `httpbin.org` gets no scheme.

## Model

| member | source | states |
|---|---|---|
| `Resolver.Classify` | favicon.py:25-29 | the four href shapes are checked in order `//`, `/`, `http`, other; each kind holds exactly under its prefix condition, so the kinds are exclusive and exhaustive |
| `Resolver.NormalizeHref` | favicon.py:25-33 | the result always ends with the href and is never empty; `//x` gives `scheme:` + href; `/x` gives `scheme://netloc` + href; an `http…` href comes back unchanged, and only such an href does; any other href gives `scheme://netloc/` + the `os.path.split` head of the page path + `/` + href |
| `Resolver.FaviconFromLink` | favicon.py:20-35 | a URI comes back exactly when an icon link with an href was found; it is exactly that href normalised by `Resolver.NormalizeHref` against the page URI, so it is non-empty and ends with the href |
| `Resolver.Resolve` | favicon.py:38-55 | if the page GET returned 200 and names an icon, the result is that link normalised against the post-redirect URI; otherwise, if the HEAD returned 200, the result is `scheme://netloc/favicon.ico` of the requested page; otherwise there is no result |
| `Resolver.ResolveNoneIff` | favicon.py:42-55 | resolution yields nothing exactly when no icon link was found and the HEAD did not return 200 |
| `Resolver.LinkIgnoresHead` | favicon.py:42-46 | once the page names an icon, the outcome of the HEAD request cannot change the result |
| `Resolver.FailedPageIgnoresHref` | favicon.py:41-46 | when the page GET does not return 200, the page's HTML cannot change the result |
| `Resolver.NormalizeHttpBase` | favicon.py:25-33 | for a page whose scheme starts with `http`, every normalised href starts with `http`, and normalising it again changes nothing |
| `Resolver.RelativeDoublesSlash` | favicon.py:29-31 | a relative href on an absolute page path, or on a path with no slash (the empty path included), yields `scheme://netloc//…`: the join doubles the slash after the host |
| `Resolver.RootPathTriplesSlash` | favicon.py:29-31 | a relative href on the root path `/` yields `scheme://netloc///` + href |
| `Resolver.EmptyPathDoublesSlash` | favicon.py:29-31 | a relative href on the empty path yields `scheme://netloc//` + href |
| `Resolver.DomainAbsoluteExample` | favicon.py:27-28 | `/i.png` at `http://x.com/a/b` gives `http://x.com/i.png` |
| `Resolver.ProtocolRelativeExample` | favicon.py:25-26 | `//cdn.com/i.png` at an `https` page gives `https://cdn.com/i.png` |
| `Resolver.RelativeExample` | favicon.py:29-31 | `i.png` at `http://x.com/a/b` gives `http://x.com//a/i.png` |
| `Resolver.HttpLookalikeExample` | favicon.py:29 | the href `httpicon.png` is returned unchanged |
| `PosixPath.Split` | favicon.py:30 | `os.path.split`: the tail is the slash-free suffix after the last slash; what lies between head and tail is only slashes; the head is empty exactly when the path has no slash, and ends with a slash only when it is all slashes |
| `PosixPath.StripTrailingSlashes` | favicon.py:30 | the trailing-slash removal inside `os.path.split`: the result is a prefix not ending in a slash, and everything removed is slashes |
| `PosixPath.SplitExt` | favicon.py:59 | `os.path.splitext`: root + ext is the path; a non-empty ext starts with its only dot and holds no slash |
| `PosixPath.SplitExtMatchesTail` | favicon.py:59 | the extension is non-empty exactly when the last path component has a dot preceded in it by a non-dot character, and it is then a suffix of that component |
| `PosixPath.SplitExample` | favicon.py:30 | `os.path.split('/a/b')` is `('/a', 'b')` |
| `PosixPath.SplitRootExample` | favicon.py:30 | `os.path.split('/')` is `('/', '')` |
| `PosixPath.SplitExtIcoExample` | favicon.py:59 | `/favicon.ico` has the extension `.ico` |
| `PosixPath.SplitExtHiddenExample` | favicon.py:59 | `/.hidden` has no extension |
| `PosixPath.SplitExtDirectoryDotExample` | favicon.py:59 | `/a.b/c` has no extension |
| `Filename.Sanitize` | favicon.py:60 | the result has the input's length and holds only ASCII word characters; word characters stay in place, and every other character, non-ASCII included, becomes `_` |
| `Filename.SanitizeIdempotent` | favicon.py:60 | sanitising a sanitised host changes nothing |
| `Filename.SanitizeFixedIff` | favicon.py:60 | a host is left unchanged exactly when it is made of ASCII word characters |
| `Filename.Extension` | favicon.py:59 | the extension is `.png` when converting; otherwise it is the `splitext` extension, a suffix of the favicon path |
| `Filename.FileName` | favicon.py:58-61 | the name is the sanitised host followed by the extension: its host part is `Sanitize(netloc)`, so every non-word host character has become `_`, the host's word characters stay in place and the part is all word characters; the name has the host's length plus the extension's; it ends with the extension, so with `.png` when converting; a dot-free favicon path gives no extension |
| `Filename.SanitizeExample` | favicon.py:60 | `My-Site.com` becomes `My_Site_com` |
| `Filename.FileNameExample` | favicon.py:58-61 | host `My-Site.com` with favicon path `/favicon.ico`, not converting, gives `My_Site_com.ico` |
| `Strings.Strip` | favicon.py:92 | `str.strip()`: the result is the part of the line between the leading and trailing whitespace; everything removed is whitespace; the result neither starts nor ends with whitespace |
| `Strings.StartsWithIff` | favicon.py:25-29 | `str.startswith` holds exactly when the string is the prefix followed by something |
| `Strings.RFind` | favicon.py:30 | the `str.rfind` inside `os.path.split`: -1 or an index holding the character, with no occurrence after it |
| `Strings.IsPySpace` | favicon.py:92 | the characters `str.isspace()` accepts, which `str.strip()` removes; among ASCII, exactly space, tab, newline, carriage return, vertical tab, form feed and the four separators U+001C to U+001F |
| `Strings.StripIdempotent` | favicon.py:92 | stripping twice is stripping once |
| `Interwiki.MatchLine` | favicon.py:92 | a match splits the line into a non-empty name of `[-0-9.a-z_]` characters, a non-empty `\s` run and a newline-free rest; the rest does not start with `\s` |
| `Interwiki.MatchLineComplete` | favicon.py:92-95 | every split the regular expression admits is found, with the same name group; for the split whose URI text does not start with `\s`, which is the one the greedy `\s+` takes, both groups are found exactly |
| `Interwiki.RegexSpaceIsPySpace` | favicon.py:92 | every `\s` character is also removed by `str.strip()` |
| `Interwiki.MatchOfStrippedLine` | favicon.py:92 | on a stripped line a match has a non-empty URI text; the name is a prefix and the URI text a suffix of the line |
| `Interwiki.ParseConfigLine` | favicon.py:92-95 | a recognised entry has a non-empty name of allowed characters that begins the stripped line, and a non-empty URI text that ends it and does not start with `\s`, as group 2 after the greedy `\s+` cannot |
| `Interwiki.ParseConfigLineIff` | favicon.py:92-94 | a line is recognised exactly when its stripped form admits some match of the regular expression |
| `Interwiki.ParseConfigLineName` | favicon.py:92-95 | whichever way the regular expression matches the stripped line, the recognised name is that match's name group; for the match whose URI text does not start with `\s` the entry is exactly the two groups |
| `Interwiki.PlanLine` | favicon.py:92-99 | the whole per-line step: a line is ignored exactly when its stripped form admits no match; for any match, the line is skipped exactly when that match's `name.png` exists and the run is not forced, and the action carries that name; a fetch writes `name.png`, is forced or finds no such icon, and carries the URI text of a match; that URI text is non-empty, does not start with `\s`, and equals group 2 of the match the greedy `\s+` makes |
| `Interwiki.PlanEntry` | favicon.py:93-99 | unrecognised lines are ignored; an entry is skipped exactly when `name.png` exists and the run is not forced; a fetched entry writes `name.png` and carries the entry's name and URI text |
| `Interwiki.ForceIgnoresExisting` | favicon.py:97 | with `--force` no entry is skipped, and the existing icons do not affect the decision |
| `Interwiki.SkipRuleExample` | favicon.py:97-99 | the entry `wp` is skipped while `wp.png` exists and the run is not forced; it is fetched into `wp.png` when forced or when the icon is absent |
| `Interwiki.PlanExample` | favicon.py:92-99 | once parsed, the example line is skipped while `wp.png` exists and the run is not forced; it is fetched into `wp.png` when forced or when the icon is absent |
| `Interwiki.StripNewlineExample` | favicon.py:92 | stripping `wp \thttps://x.org/` plus a newline drops only the newline |
| `Interwiki.MatchExample` | favicon.py:92-95 | `wp \thttps://x.org/` matches with name `wp` and URI text `https://x.org/` |
| `Interwiki.ParseExample` | favicon.py:92-95 | the line `wp \thttps://x.org/`, read with its newline, is the entry `wp` → `https://x.org/` |
| `Interwiki.UpperCaseNameExample` | favicon.py:92-94 | a name with an upper-case letter is not recognised |
| `Cli.WithScheme` | favicon.py:134-137 | an empty URI, and only an empty URI, fails with `empty URI`; every other result starts with `http` and ends with the input; an input starting with `http` is unchanged; any other gets exactly `http://` in front |
| `Cli.WithSchemeIdempotent` | favicon.py:136-137 | applying the rule to its own result changes nothing |
| `Cli.WithSchemeExamples` | favicon.py:136-137 | `example.com` becomes `http://example.com`; `https://example.com` and `httpbin.org` are kept |

## Left out

- HTTP: the GET and HEAD requests, the User-Agent header, redirects,
  connection errors and `raise_for_status` (favicon.py:41, 50, 66-68). Their
  outcomes enter `Resolver.Resolve` as status codes and as the post-redirect
  page URI.
- HTML parsing with BeautifulSoup (favicon.py:18-21). The `href` of the first
  `<link rel="icon">` element enters as an `Option<string>`.
- `urllib.parse.urlparse`: scheme, netloc and path enter already parsed
  (`Resolver.Uri`, and the `netloc` and path arguments of `Filename.FileName`).
  For the same reason, the site root `scheme://netloc/` that the batch mode
  builds from an entry's URI text (favicon.py:100) is not modelled.
- `get_favicon` (favicon.py:64-81): image decoding, the ICO size lookup,
  bicubic resampling and saving are image-library calls and floating point.
- Filesystem, logging and argparse (favicon.py:84-90, 96, 101-128, 139-158).
  This covers reading the config file, `makedirs`, `isfile`, `os.path.join`,
  the choice between `--filename` and the derived name, and the
  exception-to-log mapping. Which icon files exist enters `Interwiki.PlanLine`
  as a set of file names.
- The multi-URI variant of the tool and its proper path join are not part of
  this model.
- Character semantics follow Python 3: a `char` is a Unicode scalar value,
  and `Strings.IsPySpace` lists the characters for which `str.isspace()` holds.
