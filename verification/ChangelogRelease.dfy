/**
 `release` of changelog.py edits raw text: it replaces the first place where the text of the
 Unreleased heading ends a line, wherever that is, then rebuilds the link block. Here are both, and what
 rebuilding the links keeps; what the edit does to the meaning is in ChangelogReleaseEffect.
 */
module ChangelogRelease {
  import opened Prelude
  import opened Text
  import opened Changelog
  import opened ChangelogFormat
  import opened ChangelogRoundTrip

  // ---- with_links --------------------------------------------------------------------

  predicate IsTrailer(line: string) {
    IsBlank(line) || IsLink(line)
  }

  /** The lines without the blank lines and links they end in. */
  function Trim(ls: seq<string>): (r: seq<string>)
    ensures r <= ls
    ensures forall i :: |r| <= i < |ls| ==> IsTrailer(ls[i])
    ensures r != [] ==> !IsTrailer(Last(r))
  {
    hide IsTrailer;
    if ls != [] && IsTrailer(Last(ls)) then Trim(Front(ls)) else ls
  }

  /** `with_links` */
  function WithLinks(text: string, rs: seq<Release>): string {
    Unlines(Trim(SplitLines(RStrip(text))) + ([""] + LinkLines(rs)))
  }

  // ---- release -----------------------------------------------------------------------

  /** "## [Unreleased]" */
  const HEAD := HeadingLine(UNRELEASED, None)

  predicate HasVersion(rs: seq<Release>, version: string) {
    exists i :: 0 <= i < |rs| && rs[i].version == version
  }

  /** The version is a tuple of numbers above the one of `latest`. */
  predicate KeyAbove(version: string, latest: string) {
    var a, b := VKeyOf(version), VKeyOf(latest);
    a.Some? && b.Some? && !LexLeq(a.value, b.value)
  }

  function NewTop(version: string, day: string): string {
    HEAD + "\n" + "\n" + (HeadingLine(version, Some(day)) + "\n")
  }

  /** `release`. Where the script raises anything at all, the result is an error. */
  function ReleaseText(text: string, version: string, day: string): Result<string, Error> {
    match Parse(text)
    case Err(e) => Err(e)
    case Ok(rs) =>
      var done := Released(rs);
      if HasVersion(rs, version) then Ok(text)
      else if done != [] && !KeyAbove(version, done[0].version) then Err(Error(None, NotNewer))
      else if rs == [] || rs[0].version != UNRELEASED || Entries(rs[0]) == [] then Err(Error(None, NothingToRelease))
      else if !IsDate(day) then Err(Error(None, BadDate))
      else
        var edited := ReplaceFirst(text, HEAD + "\n", NewTop(version, day));
        match Parse(edited)
        case Err(e) => Err(e)
        case Ok(rs') => Ok(WithLinks(edited, rs'))
  }

  // ---- what with_links keeps -----------------------------------------------------------

  lemma SplitSnoc(t: string)
    ensures SplitLines(t + "\n") == SplitLines(t) || SplitLines(t + "\n") == SplitLines(t) + [""]
  {
    var ls, s := FullLines(t), Remainder(t);
    Recompose(t);
    Assoc(Unlines(ls), s, "\n");
    SplitUnlines(ls, s + "\n");
    FullLinesCons(s, "");
    assert s + "\n" + "" == s + "\n";
    SplitOneLine("");
    assert FullLines(s + "\n") == [s];
  }

  lemma {:induction false} TrimIgnoresLineFeeds(t: string)
    ensures Trim(SplitLines(RStrip(t))) == Trim(SplitLines(t))
    decreases |t|
  {
    if t != "" && t[|t| - 1] == '\n' {
      var u := t[..|t| - 1];
      TrimIgnoresLineFeeds(u);
      assert t == u + "\n";
      SplitSnoc(u);
      assert Front(SplitLines(u) + [""]) == SplitLines(u) && IsTrailer("");
    }
  }

  lemma {:induction false} TrimAppend(ls: seq<string>, more: seq<string>)
    requires forall i :: 0 <= i < |more| ==> IsTrailer(more[i])
    ensures Trim(ls + more) == Trim(ls)
    decreases |more|
  {
    if more == [] {
      assert ls + more == ls;
    } else {
      assert Front(ls + more) == ls + Front(more);
      TrimAppend(ls, Front(more));
    }
  }

  lemma TrailerKind(line: string)
    requires IsTrailer(line)
    ensures var k := Classify(line); k.Blank? || k.Link?
    ensures !StartsWith(line, HEADING_PREFIX)
  {
    if StartsWith(line, HEADING_PREFIX) {
      assert line[..3][0] == '#' && line[0] == '#';
      NotBlank(line, 0);
      HashIsNoLink(line);
      assert false;
    }
  }

  lemma {:induction false} FoldAppend(a: seq<string>, b: seq<string>, n: nat, st: State)
    requires st.Valid() && Fold(a, n, st).Ok?
    ensures Fold(a + b, n, st) == Fold(b, n + |a|, Fold(a, n, st).value)
    decreases |a|
  {
    if a == [] {
      assert a + b == b;
    } else {
      assert (a + b)[0] == a[0] && (a + b)[1..] == a[1..] + b;
      FoldAppend(a[1..], b, n + 1, Step(st, Classify(a[0])).value);
    }
  }

  lemma {:induction false} FoldPrefixOk(a: seq<string>, b: seq<string>, n: nat, st: State)
    requires st.Valid() && Fold(a + b, n, st).Ok?
    ensures Fold(a, n, st).Ok?
    decreases |a|
  {
    if a != [] {
      assert (a + b)[0] == a[0] && (a + b)[1..] == a[1..] + b;
      FoldPrefixOk(a[1..], b, n + 1, Step(st, Classify(a[0])).value);
    }
  }

  predicate AllTrailers(ls: seq<string>) {
    forall i :: 0 <= i < |ls| ==> IsTrailer(ls[i])
  }

  lemma TrailerKinds(ls: seq<string>)
    requires AllTrailers(ls)
    ensures forall i :: 0 <= i < |ls| ==> var k := Classify(ls[i]); k.Blank? || k.Link?
  {
  }

  /** Trailers after the same lines never change what the loop has read. */
  lemma SwapTrailers(a: seq<string>, b: seq<string>, c: seq<string>, n: nat, st: State)
    requires st.Valid() && AllTrailers(b) && AllTrailers(c) && Fold(a + b, n, st).Ok?
    ensures Fold(a + c, n, st).Ok?
    ensures Fold(a + c, n, st).value.releases == Fold(a + b, n, st).value.releases
  {
    FoldPrefixOk(a, b, n, st);
    FoldAppend(a, b, n, st);
    FoldAppend(a, c, n, st);
    var mid := Fold(a, n, st).value;
    TrailerKinds(b);
    TrailerKinds(c);
    hide Classify, AllTrailers, Fold;
    FoldTrailer(b, n + |a|, mid);
    FoldTrailer(c, n + |a|, mid);
  }

  lemma {:induction false} FirstHeadingPrefix(a: seq<string>, b: seq<string>, c: seq<string>, i: nat)
    requires i <= |a| && FirstHeading(a + b, i) < |a|
    ensures FirstHeading(a + c, i) == FirstHeading(a + b, i)
    decreases |a| - i
  {
    if i < |a| {
      assert (a + b)[i] == a[i] == (a + c)[i];
      if !StartsWith(a[i], HEADING_PREFIX) {
        FirstHeadingPrefix(a, b, c, i + 1);
      }
    }
  }

  lemma ParseLinesSwap(a: seq<string>, b: seq<string>, c: seq<string>)
    requires AllOneLine(a) && AllOneLine(b) && AllOneLine(c) && AllTrailers(b) && AllTrailers(c)
    requires ParseLines(a + b).Ok?
    ensures ParseLines(a + c) == ParseLines(a + b)
  {
    var start := FirstHeading(a + b, 0);
    if start >= |a| {
      TrailerKind(b[start - |a|]);
      assert false;
    }
    FirstHeadingPrefix(a, b, c, 0);
    assert (a + b)[start..] == a[start..] + b && (a + c)[start..] == a[start..] + c;
    hide FirstHeading, Fold, IsTrailer;
    SwapTrailers(a[start..], b, c, start + 1, INIT);
  }

  lemma LinksAreTrailers(rs: seq<Release>)
    requires Dated(Released(rs))
    ensures AllOneLine([""] + LinkLines(rs)) && AllTrailers([""] + LinkLines(rs))
  {
    LinkLinesAreLinks(rs);
    forall i | 0 <= i < |LinkLines(rs)| ensures IsTrailer(LinkLines(rs)[i]) {
      assert IsLinkLine(LinkLines(rs)[i]);
    }
    assert IsTrailer("");
  }

  lemma WithLinksLines(text: string, rs: seq<Release>)
    requires Dated(Released(rs))
    ensures SplitLines(WithLinks(text, rs)) == Trim(SplitLines(text)) + ([""] + LinkLines(rs))
  {
    TrimIgnoresLineFeeds(text);
    LinksAreTrailers(rs);
    hide LinkLines;
    SplitUnlinesOnly(Trim(SplitLines(text)) + ([""] + LinkLines(rs)));
  }

  lemma ParseTrimmed(ls: seq<string>, c: seq<string>)
    requires AllOneLine(ls) && ParseLines(ls).Ok? && AllOneLine(c) && AllTrailers(c)
    ensures ParseLines(Trim(ls) + c) == ParseLines(ls)
  {
    hide ParseLines, IsTrailer, Trim, OneLine;
    var a := Trim(ls);
    assert AllTrailers(ls[|a|..]);
    assert ls == a + ls[|a|..];
    ParseLinesSwap(a, ls[|a|..], c);
  }

  /** Rebuilding the link block keeps the meaning of the changelog. */
  lemma WithLinksKeepsMeaning(text: string, rs: seq<Release>)
    requires Dated(Released(rs))
    ensures Parse(text).Ok? ==> Parse(WithLinks(text, rs)) == Parse(text)
  {
    if Parse(text).Ok? {
      LinksAreTrailers(rs);
      WithLinksLines(text, rs);
      ParseTrimmed(SplitLines(text), [""] + LinkLines(rs));
      hide LinkLines, WithLinks, ParseLines, Trim;
    }
  }

  /** The rebuilt block is already the one that would be rebuilt. */
  lemma WithLinksIdempotent(text: string, rs: seq<Release>)
    requires Dated(Released(rs))
    ensures WithLinks(WithLinks(text, rs), rs) == WithLinks(text, rs)
  {
    LinksAreTrailers(rs);
    WithLinksLines(text, rs);
    TrimAppend(Trim(SplitLines(text)), [""] + LinkLines(rs));
    TrimIgnoresLineFeeds(text);
    TrimIgnoresLineFeeds(WithLinks(text, rs));
    TrimTwice(SplitLines(text));
  }

  lemma TrimTwice(ls: seq<string>)
    ensures Trim(Trim(ls)) == Trim(ls)
  {
  }
}
