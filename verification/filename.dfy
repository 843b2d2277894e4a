/** The output file name `get_filename` derives for a saved favicon. */
module Filename {
  import opened Strings
  import PosixPath

  /** `\w` under `re.ASCII`: an ASCII letter, digit or underscore. */
  predicate IsWordChar(c: char)
  {
    ('a' <= c <= 'z') || ('A' <= c <= 'Z') || ('0' <= c <= '9') || c == '_'
  }

  predicate AllWordChars(s: string)
  {
    forall i :: 0 <= i < |s| ==> IsWordChar(s[i])
  }

  /** Substitution of `_` for every `\W` match in ASCII mode: each character
      that is not an ASCII word character, non-ASCII ones included, becomes
      one underscore. */
  function Sanitize(s: string): (r: string)
    ensures |r| == |s|
    ensures AllWordChars(r)
    ensures forall i :: 0 <= i < |s| && IsWordChar(s[i]) ==> r[i] == s[i]
    ensures forall i :: 0 <= i < |s| && !IsWordChar(s[i]) ==> r[i] == '_'
  {
    if s == [] then []
    else [if IsWordChar(s[0]) then s[0] else '_'] + Sanitize(s[1..])
  }

  /** Sanitising twice changes nothing more. */
  lemma SanitizeIdempotent(s: string)
    ensures Sanitize(Sanitize(s)) == Sanitize(s)
  {
  }

  /** A string is left unchanged exactly when it is made of word characters. */
  lemma SanitizeFixedIff(s: string)
    ensures Sanitize(s) == s <==> AllWordChars(s)
  {
  }

  /** The extension part: `.png` when converting, otherwise the `splitext`
      extension of the favicon URI's path. */
  function Extension(faviconPath: string, png: bool): (ext: string)
    ensures png ==> ext == ".png"
    ensures !png ==> ext == PosixPath.SplitExt(faviconPath).ext && EndsWith(faviconPath, ext)
  {
    if png then ".png" else PosixPath.SplitExt(faviconPath).ext
  }

  /** `get_filename`: the page host with non-word characters replaced,
      followed by the extension. `netloc` is the page URI's host and
      `faviconPath` the favicon URI's path, both as `urlparse` gives them. */
  function FileName(netloc: string, faviconPath: string, png: bool): (r: string)
    ensures |r| == |netloc| + |Extension(faviconPath, png)|
    ensures r[..|netloc|] == Sanitize(netloc) && AllWordChars(r[..|netloc|])
    ensures r[|netloc|..] == Extension(faviconPath, png)
    ensures forall i :: 0 <= i < |netloc| && IsWordChar(netloc[i]) ==> r[i] == netloc[i]
    ensures png ==> EndsWith(r, ".png")
    ensures !png && '.' !in faviconPath ==> r == Sanitize(netloc)
  {
    Sanitize(netloc) + Extension(faviconPath, png)
  }

  /** The substitution on the example host `My-Site.com`. */
  lemma SanitizeExample()
    ensures Sanitize("My-Site.com") == "My_Site_com"
  {
    var h := "My-Site.com";
    var s := Sanitize(h);
    assert s[2] == '_' && s[7] == '_';
    assert forall i | 0 <= i < 11 && i != 2 && i != 7 :: s[i] == h[i];
  }

  /** The example host `My-Site.com` with an `.ico` favicon. */
  // The literals are parameters so that the solver does not unfold them at every step.
  lemma FileNameExample(host: string, path: string)
    requires host == "My-Site.com" && path == "/favicon.ico"
    ensures FileName(host, path, false) == "My_Site_com.ico"
  {
    assert Extension(path, false) == ".ico" by { PosixPath.SplitExtIcoExample(); }
    assert Sanitize(host) == "My_Site_com" by { SanitizeExample(); }
  }
}
