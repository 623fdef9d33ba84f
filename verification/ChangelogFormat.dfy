/**
 The documented format of CHANGELOG.md, written down independently of the parser: which release
 lists a changelog may hold (`WellFormed`), how one is written (`Render`), and that each written line is
 read as what it is. ChangelogRoundTrip compares the two with the parser.
 */
module ChangelogFormat {
  import opened Prelude
  import opened Text
  import opened Changelog

  // ---- which lists are changelogs ------------------------------------------------

  predicate GoodSection(s: Section) {
    && s.name in SECTIONS && s.entries != []
    && forall i :: 0 <= i < |s.entries| ==>
      && GoodText(s.entries[i].en)
      && s.entries[i].tr.Some? && GoodText(s.entries[i].tr.value)
  }

  predicate GoodSections(ss: seq<Section>) {
    && (forall i :: 0 <= i < |ss| ==> GoodSection(ss[i]))
    && forall i, j :: 0 <= i < j < |ss| ==> ss[i].name != ss[j].name
  }

  predicate WellFormed(rs: seq<Release>) {
    && rs != []
    && (forall i :: 0 <= i < |rs| ==> TitleShape(rs[i]) && GoodSections(rs[i].sections))
    && (forall i :: 1 <= i < |rs| ==> rs[i].version != UNRELEASED)
    && (forall i :: 0 <= i < |rs| && rs[i].version != UNRELEASED ==> rs[i].sections != [])
    && forall i, j :: 0 <= i < j < |rs| && rs[i].version != UNRELEASED ==> NewerThan(rs[i], rs[j])
  }

  // ---- how one is written --------------------------------------------------------

  function HeadingLine(version: string, date: Option<string>): string {
    "## [" + version + "]" + if date.Some? then " - " + date.value else ""
  }

  function EnglishLine(e: Entry): string {
    EN_PREFIX + e.en
  }

  function TranslationLine(e: Entry): string
    requires e.tr.Some?
  {
    TR_PREFIX + e.tr.value
  }

  function SectionLine(s: Section): string {
    SECTION_PREFIX + s.name
  }

  function EntryLines(es: seq<Entry>): seq<string>
    requires forall i :: 0 <= i < |es| ==> es[i].tr.Some?
  {
    if es == [] then []
    else [EnglishLine(es[0]), TranslationLine(es[0])] + EntryLines(es[1..])
  }

  function SectionLines(ss: seq<Section>): seq<string>
    requires forall i :: 0 <= i < |ss| ==> GoodSection(ss[i])
  {
    if ss == [] then []
    else
      assert GoodSection(ss[0]);
      [SectionLine(ss[0])] + (EntryLines(ss[0].entries) + ([""] + SectionLines(ss[1..])))
  }

  function ReleaseLines(rs: seq<Release>): seq<string>
    requires forall i :: 0 <= i < |rs| ==> GoodSections(rs[i].sections)
  {
    if rs == [] then []
    else
      assert GoodSections(rs[0].sections);
      [HeadingLine(rs[0].version, rs[0].date), ""] + (SectionLines(rs[0].sections) + ReleaseLines(rs[1..]))
  }

  const REPO_URL := "https://github.com/alxndr-bnd/javi"

  function LinkLine(v: string, url: string): string {
    "[" + (v + "]" + (": " + url))
  }

  function CompareUrl(from: string, to: string): string {
    REPO_URL + "/compare/v" + from + "..." + to
  }

  function TagUrl(v: string): string {
    REPO_URL + "/releases/tag/v" + v
  }

  function VersionLink(v: string, prev: Option<string>): string {
    LinkLine(v, if prev.Some? then CompareUrl(prev.value, "v" + v) else TagUrl(v))
  }

  function UnreleasedLink(v: string): string {
    LinkLine(UNRELEASED, CompareUrl(v, "HEAD"))
  }

  /** One link for each version, to the comparison with the version below it or to its tag. */
  function VersionLinks(done: seq<Release>): seq<string> {
    if done == [] then []
    else
      [VersionLink(done[0].version, if |done| > 1 then Some(done[1].version) else None)]
      + VersionLinks(done[1..])
  }

  /** `link_lines` */
  function LinkLines(rs: seq<Release>): seq<string> {
    var done := Released(rs);
    if done == [] then []
    else [UnreleasedLink(done[0].version)] + VersionLinks(done)
  }

  /** A free-text header: lines before the first heading. */
  predicate IsPreamble(pre: seq<string>) {
    AllOneLine(pre) && forall i :: 0 <= i < |pre| ==> !StartsWith(pre[i], HEADING_PREFIX)
  }

  function Render(pre: seq<string>, rs: seq<Release>): string
    requires WellFormed(rs)
  {
    Unlines(pre + (ReleaseLines(rs) + LinkLines(rs)))
  }

  // ---- characters of versions and dates ------------------------------------------

  predicate VersionChars(v: string) {
    forall k :: 0 <= k < |v| ==> IsDigit(v[k]) || v[k] == '.'
  }

  lemma {:induction false} SplitChars(s: string)
    requires forall i :: 0 <= i < |Split(s, '.')| ==> AllDigits(Split(s, '.')[i])
    ensures VersionChars(s)
    decreases |s|
  {
    var i := IndexOf(s, '.');
    var parts := Split(s, '.');
    if i < |s| {
      var rest := s[i + 1..];
      assert forall j :: 0 <= j < |Split(rest, '.')| ==> Split(rest, '.')[j] == parts[j + 1];
      SplitChars(rest);
      assert AllDigits(parts[0]) && parts[0] == s[..i];
      forall k | 0 <= k < |s| ensures IsDigit(s[k]) || s[k] == '.' {
        if k < i {
          assert s[k] == s[..i][k];
        } else if i < k {
          assert s[k] == rest[k - i - 1];
        }
      }
    } else {
      assert AllDigits(parts[0]);
    }
  }

  lemma TagChars(v: string)
    requires IsVersionTag(v)
    ensures ']' !in v && OneLine(v) && NoSpace(v)
    ensures v != UNRELEASED ==> VersionChars(v)
  {
    if v != UNRELEASED {
      SplitChars(v);
    }
  }

  lemma DateChars(d: string)
    requires IsDateShape(d)
    ensures OneLine(d)
  {
    forall k | 0 <= k < |d| ensures d[k] != '\n' {
      if k < 4 {
        assert d[k] == d[..4][k];
      } else if 5 <= k < 7 {
        assert d[k] == d[5..7][k - 5];
      } else if 8 <= k {
        assert d[k] == d[8..][k - 8];
      }
    }
  }

  // ---- every written line is read as what it is ------------------------------------

  /** The part of a bracketed line after its opening, cut at the closing bracket. */
  lemma CutAtBracket(v: string, after: string)
    requires ']' !in v
    ensures var rest := v + "]" + after;
            var j := IndexOf(rest, ']');
            j == |v| < |rest| && rest[..j] == v && rest[j + 1..] == after && rest[j..] == "]" + after
  {
    IndexOfAt(v, ']', after);
  }

  lemma HeadingParts(v: string, date: Option<string>)
    requires IsVersionTag(v) && ']' !in v && (date.Some? ==> IsDateShape(date.value))
    ensures HeadingOf(HeadingLine(v, date)) == Some((v, date))
  {
    var after := if date.Some? then " - " + date.value else "";
    var rest := v + "]" + after;
    var line := HeadingLine(v, date);
    assert line == "## [" + rest;
    StartsWithAppend("## [", rest);
    CutAtBracket(v, after);
    if date.Some? {
      StartsWithAppend(" - ", date.value);
    }
  }

  lemma HashIsNoLink(line: string)
    requires line != "" && (line[0] == '#' || line[0] == '-' || line[0] == ' ')
    ensures !IsLink(line)
  {
  }

  lemma NotAHeading(line: string)
    requires (line != "" && line[0] != '#') || (|line| > 2 && line[2] == '#')
    ensures HeadingOf(line).None? && !StartsWith(line, HEADING_PREFIX)
  {
  }

  lemma NotBlank(line: string, i: nat)
    requires i < |line| && !IsSpace(line[i])
    ensures !IsBlank(line)
  {
  }

  lemma HeadingStart(v: string, date: Option<string>)
    ensures var line := HeadingLine(v, date); line != "" && line[0] == '#' && StartsWith(line, HEADING_PREFIX)
  {
  }

  lemma HeadingIsOneLine(v: string, date: Option<string>)
    requires OneLine(v) && (date.Some? ==> OneLine(date.value))
    ensures OneLine(HeadingLine(v, date))
  {
  }

  lemma ClassifyHeading(line: string)
    requires !IsBlank(line) && !IsLink(line) && HeadingOf(line).Some?
    ensures Classify(line) == Heading(HeadingOf(line).value.0, HeadingOf(line).value.1)
  {
  }

  lemma HeadingLineIsHeading(v: string, date: Option<string>)
    requires IsVersionTag(v) && (date.Some? ==> IsDateShape(date.value))
    ensures Classify(HeadingLine(v, date)) == Heading(v, date)
    ensures StartsWith(HeadingLine(v, date), HEADING_PREFIX) && OneLine(HeadingLine(v, date))
  {
    hide HeadingLine, Classify, HeadingOf, IsLink, IsBlank, StartsWith, IsVersionTag, IsDateShape, OneLine;
    TagChars(v);
    if date.Some? {
      DateChars(date.value);
    }
    HeadingIsOneLine(v, date);
    HeadingParts(v, date);
    HeadingStart(v, date);
    NotBlank(HeadingLine(v, date), 0);
    HashIsNoLink(HeadingLine(v, date));
    ClassifyHeading(HeadingLine(v, date));
  }

  lemma ClassifySection(line: string)
    requires !IsBlank(line) && !IsLink(line) && HeadingOf(line).None? && StartsWith(line, SECTION_PREFIX) && |line| > 4
    ensures Classify(line) == SectionHead(line[4..])
  {
    hide IsBlank, IsLink, HeadingOf, StartsWith;
  }

  lemma SectionLineParts(name: string)
    requires name in SECTIONS
    ensures var line := SECTION_PREFIX + name;
            |line| > 4 && line[0] == '#' && line[2] == '#' && line[4..] == name && OneLine(line)
  {
  }

  lemma SectionLineIsSection(name: string)
    requires name in SECTIONS
    ensures Classify(SECTION_PREFIX + name) == SectionHead(name) && OneLine(SECTION_PREFIX + name)
  {
    var line := SECTION_PREFIX + name;
    SectionLineParts(name);
    StartsWithAppend(SECTION_PREFIX, name);
    hide Classify, HeadingOf, IsLink, IsBlank, StartsWith, OneLine;
    NotBlank(line, 0);
    HashIsNoLink(line);
    NotAHeading(line);
    ClassifySection(line);
  }

  lemma TextAfterPrefix(p: string, s: string)
    requires GoodText(s)
    ensures TextAfter(p + s, p) == Some(s)
  {
  }

  lemma EnglishLineIsEnglish(s: string)
    requires GoodText(s)
    ensures Classify(EN_PREFIX + s) == English(s) && OneLine(EN_PREFIX + s)
  {
    var line := EN_PREFIX + s;
    assert line[0] == '-';
    NotBlank(line, 0);
    HashIsNoLink(line);
    NotAHeading(line);
    TextAfterPrefix(EN_PREFIX, s);
  }

  lemma TranslationLineIsTranslation(s: string)
    requires GoodText(s)
    ensures Classify(TR_PREFIX + s) == Translation(s) && OneLine(TR_PREFIX + s)
  {
    var line := TR_PREFIX + s;
    assert line[0] == ' ' && line[2] == '-';
    NotBlank(line, 2);
    HashIsNoLink(line);
    NotAHeading(line);
    TextAfterPrefix(TR_PREFIX, s);
  }

  lemma LinkParts(v: string, url: string)
    requires IsVersionTag(v) && ']' !in v && url != "" && NoSpace(url)
    ensures IsLink(LinkLine(v, url))
  {
    var after := ": " + url;
    StartsWithAppend("[", v + "]" + after);
    CutAtBracket(v, after);
    assert "]" + after == "]: " + url;
    StartsWithAppend("]: ", url);
  }

  predicate IsLinkLine(line: string) {
    OneLine(line) && Classify(line) == Link && !StartsWith(line, HEADING_PREFIX)
  }

  lemma ClassifyLink(line: string)
    requires !IsBlank(line) && IsLink(line)
    ensures Classify(line) == Link
  {
  }

  lemma LinkLineStart(v: string, url: string)
    requires OneLine(v) && NoSpace(url)
    ensures var line := LinkLine(v, url); line != "" && line[0] == '[' && OneLine(line)
  {
  }

  lemma LinkLineIsLink(v: string, url: string)
    requires IsVersionTag(v) && url != "" && NoSpace(url)
    ensures IsLinkLine(LinkLine(v, url))
  {
    hide LinkLine, Classify, HeadingOf, IsLink, IsBlank, StartsWith, IsVersionTag, OneLine, NoSpace;
    TagChars(v);
    LinkParts(v, url);
    LinkLineStart(v, url);
    NotBlank(LinkLine(v, url), 0);
    NotAHeading(LinkLine(v, url));
    ClassifyLink(LinkLine(v, url));
  }

  lemma NoSpaceAppend(a: string, b: string)
    requires NoSpace(a) && NoSpace(b)
    ensures NoSpace(a + b)
  {
  }

  lemma RepoHasNoSpace()
    ensures NoSpace(REPO_URL)
  {
  }

  lemma PathsHaveNoSpace()
    ensures NoSpace("/releases/tag/v") && NoSpace("/compare/v") && NoSpace("...") && NoSpace("v")
  {
  }

  lemma UrlLiterals()
    ensures NoSpace(REPO_URL + "/releases/tag/v") && NoSpace(REPO_URL + "/compare/v") && NoSpace("...") && NoSpace("v")
  {
    hide NoSpace;
    RepoHasNoSpace();
    PathsHaveNoSpace();
    NoSpaceAppend(REPO_URL, "/releases/tag/v");
    NoSpaceAppend(REPO_URL, "/compare/v");
  }

  lemma UrlChars(v: string, to: string)
    requires NoSpace(v) && NoSpace(to)
    ensures NoSpace(CompareUrl(v, to)) && NoSpace(TagUrl(v)) && NoSpace("v" + v)
    ensures CompareUrl(v, to) != "" && TagUrl(v) != ""
  {
    UrlLiterals();
    hide NoSpace;
    NoSpaceAppend("v", v);
    NoSpaceAppend(REPO_URL + "/releases/tag/v", v);
    NoSpaceAppend(REPO_URL + "/compare/v", v);
    NoSpaceAppend(REPO_URL + "/compare/v" + v, "...");
    NoSpaceAppend(REPO_URL + "/compare/v" + v + "...", to);
  }

  predicate AreLinks(ls: seq<string>) {
    forall i :: 0 <= i < |ls| ==> IsLinkLine(ls[i])
  }

  lemma ConsLink(l: string, ls: seq<string>)
    requires IsLinkLine(l) && AreLinks(ls)
    ensures AreLinks([l] + ls)
  {
  }

  lemma CompareLink(tag: string, from: string, to: string)
    requires IsVersionTag(tag) && IsVersion(from) && NoSpace(to)
    ensures IsLinkLine(LinkLine(tag, CompareUrl(from, to)))
  {
    TagChars(from);
    UrlChars(from, to);
    LinkLineIsLink(tag, CompareUrl(from, to));
  }

  lemma VersionLinkIsLink(v: string, prev: Option<string>)
    requires IsVersion(v) && (prev.Some? ==> IsVersion(prev.value))
    ensures IsLinkLine(VersionLink(v, prev))
  {
    TagChars(v);
    UrlChars(v, "");
    if prev.Some? {
      CompareLink(v, prev.value, "v" + v);
    } else {
      LinkLineIsLink(v, TagUrl(v));
    }
  }

  lemma {:induction false} VersionLinksAreLinks(done: seq<Release>)
    requires Dated(done)
    ensures AreLinks(VersionLinks(done))
  {
    if done != [] {
      var prev := if |done| > 1 then Some(done[1].version) else None;
      VersionLinkIsLink(done[0].version, prev);
      VersionLinksAreLinks(done[1..]);
      ConsLink(VersionLink(done[0].version, prev), VersionLinks(done[1..]));
    }
  }

  lemma LinkLinesAreLinks(rs: seq<Release>)
    requires Dated(Released(rs))
    ensures AreLinks(LinkLines(rs))
  {
    var done := Released(rs);
    VersionLinksAreLinks(done);
    if done != [] {
      CompareLink(UNRELEASED, done[0].version, "HEAD");
      ConsLink(UnreleasedLink(done[0].version), VersionLinks(done));
    }
  }
}
