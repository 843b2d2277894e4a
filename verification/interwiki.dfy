/** Recognition of `conf/interwiki.local.conf` lines in the DokuWiki batch
    mode, and the rule that decides which entries are fetched. */
module Interwiki {
  import opened Wrappers
  import opened Strings

  /** A character of the class `[-0-9.a-z_]` an interwiki name is made of. */
  predicate IsNameChar(c: char)
  {
    c == '-' || ('0' <= c <= '9') || c == '.' || ('a' <= c <= 'z') || c == '_'
  }

  /** `\s` under `re.ASCII`: space, tab, newline, carriage return, form feed
      and vertical tab. */
  predicate IsRegexSpace(c: char)
  {
    c == ' ' || c == '\t' || c == '\n' || c == '\r' || c == '\U{000C}' || c == '\U{000B}'
  }

  /** A recognised line: the interwiki name and the URI text after it. */
  datatype Entry = Entry(name: string, target: string)

  /** `s` is `name`, then `gap`, then `rest`, as the groups and the `\s+` of
      `([-0-9.a-z_]+)\s+(.*)` would split it (`.` never matches a newline). */
  ghost predicate IsMatch(s: string, name: string, gap: string, rest: string)
  {
    && s == name + gap + rest
    && |name| > 0 && (forall i :: 0 <= i < |name| ==> IsNameChar(name[i]))
    && |gap| > 0 && (forall i :: 0 <= i < |gap| ==> IsRegexSpace(gap[i]))
    && '\n' !in rest
  }

  /** A full match of the pattern `([-0-9.a-z_]+)\s+(.*)` in ASCII mode,
      returning its two groups. The name is the longest run of name characters at the
      front, the whitespace run after it is taken greedily, and the rest must
      hold no newline. */
  function MatchLine(s: string): (r: Option<Entry>)
    ensures r.Some? ==> |r.value.name| + |r.value.target| < |s|
    ensures r.Some? ==> IsMatch(s, r.value.name, s[|r.value.name|..|s| - |r.value.target|], r.value.target)
    ensures r.Some? ==> r.value.target == [] || !IsRegexSpace(r.value.target[0])
  {
    var n := Span(s, IsNameChar);
    var w := Span(s[n..], IsRegexSpace);
    if n > 0 && w > 0 && '\n' !in s[n + w..] then
      var e := Entry(s[..n], s[n + w..]);
      assert s == e.name + s[n..n + w] + e.target;
      Some(e)
    else
      None
  }

  /** Every way the regular expression can match is found, with the same name:
      the name group cannot end early because whitespace is never a name
      character, and the greedy whitespace run leaves a rest free of newlines.
      The split whose rest does not start with `\s` is the one the greedy
      `\s+` picks, so its rest is the URI text found. */
  lemma MatchLineComplete(s: string, name: string, gap: string, rest: string)
    requires IsMatch(s, name, gap, rest)
    ensures MatchLine(s).Some?
    ensures MatchLine(s).value.name == name
    ensures (rest == [] || !IsRegexSpace(rest[0])) ==> MatchLine(s).value == Entry(name, rest)
  {
    var n := Span(s, IsNameChar);
    assert s[|name|] == gap[0];
    assert n == |name|;
    var t := s[n..];
    var w := Span(t, IsRegexSpace);
    assert t[0] == gap[0];
    assert w >= |gap|;
    assert '\n' !in s[n + w..] by {
      forall k | n + w <= k < |s|
        ensures s[k] != '\n'
      {
        assert s[k] == rest[k - |name| - |gap|];
      }
    }
    if rest == [] {
      assert t == gap;
    } else if !IsRegexSpace(rest[0]) {
      assert t[|gap|] == rest[0];
      assert w == |gap|;
      assert s[n + w..] == rest;
    }
  }

  /** Every `\s` character is whitespace for `str.strip()` too. */
  lemma RegexSpaceIsPySpace(c: char)
    requires IsRegexSpace(c)
    ensures IsPySpace(c)
  {
  }

  /** On a line without trailing whitespace, a match leaves a non-empty URI
      text: the whitespace run cannot be the end of the line. */
  lemma MatchOfStrippedLine(s: string)
    requires s == [] || !IsPySpace(s[|s| - 1])
    ensures MatchLine(s).Some? ==> |MatchLine(s).value.target| > 0
    ensures MatchLine(s).Some? ==> StartsWith(s, MatchLine(s).value.name) && EndsWith(s, MatchLine(s).value.target)
  {
  }

  /** The whole line-recognition step: strip the line, then match it. */
  function ParseConfigLine(line: string): (r: Option<Entry>)
    ensures r.Some? ==> |r.value.name| > 0 && |r.value.target| > 0
    ensures r.Some? ==> forall i :: 0 <= i < |r.value.name| ==> IsNameChar(r.value.name[i])
    ensures r.Some? ==> StartsWith(Strip(line), r.value.name) && EndsWith(Strip(line), r.value.target)
    ensures r.Some? ==> !IsRegexSpace(r.value.target[0])
  {
    var s := Strip(line);
    MatchOfStrippedLine(s);
    MatchLine(s)
  }

  /** A line is recognised exactly when its stripped form matches the regular
      expression in some way (`MatchLineComplete` adds that the name found is
      then the name group of every such match). */
  lemma ParseConfigLineIff(line: string)
    ensures ParseConfigLine(line).Some? <==> exists name, gap, rest :: IsMatch(Strip(line), name, gap, rest)
  {
    var s := Strip(line);
    var r := ParseConfigLine(line);
    if r.Some? {
      assert IsMatch(s, r.value.name, s[|r.value.name|..|s| - |r.value.target|], r.value.target);
    }
    forall name, gap, rest | IsMatch(s, name, gap, rest)
      ensures r.Some?
    {
      MatchLineComplete(s, name, gap, rest);
    }
  }

  /** The icon file written for an entry, inside the interwiki images directory. */
  function IconFile(name: string): string
  {
    name + ".png"
  }

  /** What the batch loop does with one line. */
  datatype LineAction =
    | Ignore                                        // not an entry: skipped silently
    | Skip(name: string)                            // icon present and not forced
    | Fetch(name: string, iconFile: string, target: string)

  /** The batch loop's decision for one line, given what `ParseConfigLine`
      made of it, the icon files already present in the images directory and
      the `--force` flag. */
  function PlanEntry(parsed: Option<Entry>, existing: set<string>, force: bool): (a: LineAction)
    ensures a == Ignore <==> parsed.None?
    ensures a.Skip? <==> parsed.Some? && IconFile(parsed.value.name) in existing && !force
    ensures a.Skip? ==> a.name == parsed.value.name
    ensures a.Fetch? ==> && parsed == Some(Entry(a.name, a.target))
                         && a.iconFile == a.name + ".png"
                         && (force || a.iconFile !in existing)
  {
    match parsed
    case None => Ignore
    case Some(e) =>
      if IconFile(e.name) in existing && !force then Skip(e.name)
      else Fetch(e.name, IconFile(e.name), e.target)
  }

  /** Whatever match the regular expression finds on a stripped line, the
      recognised entry carries its name group; and for the match the greedy
      `\s+` makes, whose rest does not start with `\s`, the entry is exactly
      the two groups. */
  lemma ParseConfigLineName(line: string)
    ensures forall name, gap, rest :: IsMatch(Strip(line), name, gap, rest) ==>
              && ParseConfigLine(line).Some? && ParseConfigLine(line).value.name == name
              && ((rest == [] || !IsRegexSpace(rest[0])) ==> ParseConfigLine(line) == Some(Entry(name, rest)))
  {
    forall name, gap, rest | IsMatch(Strip(line), name, gap, rest)
      ensures && ParseConfigLine(line).Some? && ParseConfigLine(line).value.name == name
              && ((rest == [] || !IsRegexSpace(rest[0])) ==> ParseConfigLine(line) == Some(Entry(name, rest)))
    {
      MatchLineComplete(Strip(line), name, gap, rest);
    }
  }

  /** One pass of the batch loop over `line`: a line whose stripped form does
      not match is ignored; a matching line is skipped exactly when the icon
      named by its name group exists and the run is not forced; otherwise that
      icon is fetched from the URI text the match leaves after the whitespace. */
  function PlanLine(line: string, existing: set<string>, force: bool): (a: LineAction)
    ensures a == Ignore <==> !exists name, gap, rest :: IsMatch(Strip(line), name, gap, rest)
    ensures forall name, gap, rest :: IsMatch(Strip(line), name, gap, rest) ==>
              (a.Skip? <==> IconFile(name) in existing && !force) && (!a.Ignore? ==> a.name == name)
    ensures a.Fetch? ==> && a.iconFile == a.name + ".png"
                         && (force || a.iconFile !in existing)
                         && exists gap :: IsMatch(Strip(line), a.name, gap, a.target)
    ensures a.Fetch? ==> a.target != [] && !IsRegexSpace(a.target[0])
    ensures forall name, gap, rest :: IsMatch(Strip(line), name, gap, rest) && (rest == [] || !IsRegexSpace(rest[0])) ==>
              (a.Fetch? ==> a.target == rest)
  {
    ParseConfigLineIff(line);
    ParseConfigLineName(line);
    var parsed := ParseConfigLine(line);
    var s := Strip(line);
    assert parsed.Some? ==> IsMatch(s, parsed.value.name, s[|parsed.value.name|..|s| - |parsed.value.target|], parsed.value.target);
    PlanEntry(parsed, existing, force)
  }

  /** With `--force`, no entry is skipped and what is on disk plays no part. */
  lemma ForceIgnoresExisting(parsed: Option<Entry>, existing: set<string>, other: set<string>)
    ensures !PlanEntry(parsed, existing, true).Skip?
    ensures PlanEntry(parsed, existing, true) == PlanEntry(parsed, other, true)
  {
  }

  /** Stripping removes the newline a line is read with. */
  // The literals are parameters so that the solver does not unfold them at every step.
  lemma StripNewlineExample(body: string, line: string)
    requires body == "wp \thttps://x.org/" && line == body + "\n"
    ensures Strip(line) == body
  {
    assert Lead(line) == 0 by { assert line[0] == 'w'; }
    assert line[0..] == line;
    assert SpanBack(line, IsPySpace) == 1 by { assert line[|line| - 2] == '/'; }
  }

  /** The two groups of a matched line. */
  // The literals are parameters so that the solver does not unfold them at every step.
  lemma MatchExample(name: string, gap: string, target: string, s: string)
    requires name == "wp" && gap == " \t" && target == "https://x.org/"
    requires s == name + gap + target
    ensures MatchLine(s) == Some(Entry(name, target))
  {
    assert Span(s, IsNameChar) == 2 by {
      assert IsMatch(s, name, gap, target);
      MatchLineComplete(s, name, gap, target);
    }
    assert Span(s[2..], IsRegexSpace) == 2 by {
      assert s[2..] == gap + target;
      assert s[2..][2] == 'h';
    }
  }

  /** A typical configuration line, as read from the file with its newline. */
  // The literals are parameters so that the solver does not unfold them at every step.
  lemma ParseExample(line: string)
    requires line == "wp \thttps://x.org/\n"
    ensures ParseConfigLine(line) == Some(Entry("wp", "https://x.org/"))
  {
    var body := "wp" + " \t" + "https://x.org/";
    assert line == body + "\n";
    StripNewlineExample(body, line);
    MatchExample("wp", " \t", "https://x.org/", body);
  }

  /** Upper-case letters are not allowed in a name, so such a line is ignored. */
  // The literals are parameters so that the solver does not unfold them at every step.
  lemma UpperCaseNameExample(line: string)
    requires line == "Wp https://x.org/"
    ensures ParseConfigLine(line).None?
  {
    assert Lead(line) == 0 by { assert line[0] == 'W'; }
    assert Strip(line) == line by { assert line[|line| - 1] == '/'; }
    assert Span(line, IsNameChar) == 0;
  }

  /** The skip rule on the entry `wp`: skipped while `wp.png` exists, unless forced. */
  // The literals are parameters so that the solver does not unfold them at every step.
  lemma SkipRuleExample(parsed: Option<Entry>)
    requires parsed == Some(Entry("wp", "https://x.org/"))
    ensures PlanEntry(parsed, {"wp.png"}, false) == Skip("wp")
    ensures PlanEntry(parsed, {"wp.png"}, true) == Fetch("wp", "wp.png", "https://x.org/")
    ensures PlanEntry(parsed, {}, false) == Fetch("wp", "wp.png", "https://x.org/")
  {
    assert IconFile("wp") == "wp.png";
  }

  /** The example line is skipped while `wp.png` exists, unless forced. */
  // The literals are parameters so that the solver does not unfold them at every step.
  lemma PlanExample(line: string, parsed: Option<Entry>)
    requires line == "wp \thttps://x.org/\n" && parsed == ParseConfigLine(line)
    ensures PlanEntry(parsed, {"wp.png"}, false) == Skip("wp")
    ensures PlanEntry(parsed, {"wp.png"}, true) == Fetch("wp", "wp.png", "https://x.org/")
    ensures PlanEntry(parsed, {}, false) == Fetch("wp", "wp.png", "https://x.org/")
  {
    ParseExample(line);
    SkipRuleExample(parsed);
  }
}
