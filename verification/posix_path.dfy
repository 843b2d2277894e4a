/** The two `os.path` functions (POSIX flavour) the favicon tool calls. */
module PosixPath {
  import opened Strings

  /** The pair `os.path.split` returns. */
  datatype PathSplit = PathSplit(head: string, tail: string)

  /** The pair `os.path.splitext` returns. */
  datatype PathExt = PathExt(root: string, ext: string)

  predicate AllSlashes(s: string)
  {
    forall i :: 0 <= i < |s| ==> s[i] == '/'
  }

  /** `s.rstrip('/')`: the longest prefix of `s` not ending in a slash. */
  function StripTrailingSlashes(s: string): (r: string)
    ensures |r| <= |s| && s[..|r|] == r
    ensures forall k :: |r| <= k < |s| ==> s[k] == '/'
    ensures r == [] || r[|r| - 1] != '/'
  {
    s[..|s| - SpanBack(s, c => c == '/')]
  }

  /** `os.path.split(p)`: the tail is everything after the last slash; the head
      is everything up to it, with its trailing slashes removed unless the head
      consists of slashes only. */
  function Split(p: string): (r: PathSplit)
    ensures |r.head| + |r.tail| <= |p|
    ensures StartsWith(p, r.head) && EndsWith(p, r.tail)
    ensures '/' !in r.tail
    ensures forall k :: |r.head| <= k < |p| - |r.tail| ==> p[k] == '/'
    ensures '/' in p ==> p[|p| - |r.tail| - 1] == '/'
    ensures r.head == [] <==> '/' !in p
    ensures r.head != [] && r.head[|r.head| - 1] == '/' ==> AllSlashes(r.head) && |r.head| + |r.tail| == |p|
  {
    var i := RFind(p, '/') + 1;
    var head := p[..i];
    var tail := p[i..];
    assert '/' !in tail by {
      forall k | 0 <= k < |tail| ensures tail[k] != '/' {
        assert tail[k] == p[i + k];
      }
    }
    assert '/' in p <==> i > 0 by {
      if '/' in p {
        var k :| 0 <= k < |p| && p[k] == '/';
        assert k <= i - 1;
      }
    }
    assert '/' in p ==> p[i - 1] == '/';
    if head != [] && !AllSlashes(head) then
      var stripped := StripTrailingSlashes(head);
      assert stripped != [] by {
        var k :| 0 <= k < |head| && head[k] != '/';
        assert k < |stripped|;
      }
      PathSplit(stripped, tail)
    else
      PathSplit(head, tail)
  }

  /** True when some character of `p` in `[lo, hi)` is not a dot. */
  predicate HasNonDot(p: string, lo: int, hi: int)
    requires 0 <= lo && hi <= |p|
  {
    exists k :: lo <= k < hi && p[k] != '.'
  }

  /** `os.path.splitext(p)`: the extension starts at the last dot, provided that
      dot lies in the final path component and is not part of that
      component's leading dots; otherwise the extension is empty. */
  function SplitExt(p: string): (r: PathExt)
    ensures r.root + r.ext == p
    ensures r.ext != [] ==> r.ext[0] == '.' && '/' !in r.ext && '.' !in r.ext[1..]
  {
    var sepIndex := RFind(p, '/');
    var dotIndex := RFind(p, '.');
    if dotIndex > sepIndex && HasNonDot(p, sepIndex + 1, dotIndex) then
      PathExt(p[..dotIndex], p[dotIndex..])
    else
      PathExt(p, [])
  }

  /** The final path component has an extension: a dot preceded, somewhere in
      the component, by a character that is not a dot. */
  ghost predicate HasExtension(t: string)
  {
    exists i, j :: 0 <= i < j < |t| && t[i] != '.' && t[j] == '.'
  }

  /** `splitext` agrees with the reference description: the extension is
      non-empty exactly when the final component (the tail of `split`) has one,
      and it is then the suffix of that component starting at its last dot. */
  lemma SplitExtMatchesTail(p: string)
    ensures SplitExt(p).ext != [] <==> HasExtension(Split(p).tail)
    ensures SplitExt(p).ext != [] ==> EndsWith(Split(p).tail, SplitExt(p).ext)
  {
    var sepIndex := RFind(p, '/');
    var dotIndex := RFind(p, '.');
    var t := Split(p).tail;
    assert t == p[sepIndex + 1..];
    if dotIndex > sepIndex && HasNonDot(p, sepIndex + 1, dotIndex) {
      var k :| sepIndex + 1 <= k < dotIndex && p[k] != '.';
      assert t[k - sepIndex - 1] != '.' && t[dotIndex - sepIndex - 1] == '.';
      assert SplitExt(p).ext == p[dotIndex..];
    }
  }

  /** The head of an absolute path, or of a path with no slash, is empty or
      starts with a slash: the head is a prefix of the path, empty exactly
      when the path has no slash. */
  lemma SplitHeadLeadingSlash(p: string)
    requires StartsWith(p, "/") || '/' !in p
    ensures var h := Split(p).head; h == [] || h[0] == '/'
  {
    if '/' in p {
      assert p[0] == '/';
    }
  }

  /** Python's `os.path.split('/a/b')` is `('/a', 'b')`. */
  lemma SplitExample()
    ensures Split("/a/b") == PathSplit("/a", "b")
  {
    assert RFind("/a/b", '/') == 2;
    assert "/a/b"[..3] == "/a/" && "/a/"[1] == 'a';
    assert SpanBack("/a/", c => c == '/') == 1;
    assert "/a/"[..2] == "/a";
  }

  /** A root-only path keeps its slash as the head. */
  lemma SplitRootExample()
    ensures Split("/") == PathSplit("/", "")
  {
  }

  lemma SplitExtIcoExample()
    ensures SplitExt("/favicon.ico") == PathExt("/favicon", ".ico")
  {
    var p := "/favicon.ico";
    assert p[8] == '.' && p[0] == '/';
    assert RFind(p, '.') == 8 && RFind(p, '/') == 0;
    assert p[1] != '.';
  }

  /** A leading dot does not start an extension. */
  lemma SplitExtHiddenExample()
    ensures SplitExt("/.hidden").ext == ""
  {
  }

  /** A dot in a directory name does not start an extension. */
  lemma SplitExtDirectoryDotExample()
    ensures SplitExt("/a.b/c").ext == ""
  {
  }
}
