/** The loops changelog.py runs besides the parser, and the command that releases a version. */
module ChangelogTool {
  import opened Prelude
  import opened Text
  import opened Changelog
  import opened ChangelogFormat
  import opened ChangelogRoundTrip
  import opened ChangelogRelease
  import opened ChangelogReleaseProof
  import opened ChangelogReleaseEffect

  method LinkLinesLoop(rs: seq<Release>) returns (out: seq<string>)
    ensures out == LinkLines(rs)
  {
    var done := Released(rs);
    if done == [] {
      return [];
    }
    hide VersionLink;
    var links: seq<string>, i := [], 0;
    while i < |done|
      invariant 0 <= i <= |done|
      invariant links + VersionLinks(done[i..]) == VersionLinks(done)
    {
      var link := VersionLink(done[i].version, if i + 1 < |done| then Some(done[i + 1].version) else None);
      assert done[i..][0] == done[i] && done[i..][1..] == done[i + 1..];
      Assoc(links, [link], VersionLinks(done[i + 1..]));
      links, i := links + [link], i + 1;
    }
    assert links + [] == links;
    out := [UnreleasedLink(done[0].version)] + links;
  }

  method WithLinksLoop(text: string, rs: seq<Release>) returns (out: string)
    ensures out == WithLinks(text, rs)
  {
    hide IsTrailer, SplitLines, RStrip, LinkLines, Unlines;
    var lines := SplitLines(RStrip(text));
    while lines != [] && IsTrailer(Last(lines))
      invariant Trim(lines) == Trim(SplitLines(RStrip(text)))
      decreases |lines|
    {
      lines := Front(lines);
    }
    var links := LinkLinesLoop(rs);
    out := Unlines(lines + ([""] + links));
  }

  method ReleaseCommand(text: string, version: string, day: string) returns (r: Result<string, Error>)
    ensures r == ReleaseText(text, version, day)
  {
    var parsed := ParseLoop(text);
    if parsed.Err? {
      return Err(parsed.error);
    }
    var rs := parsed.value;
    if HasVersion(rs, version) {
      return Ok(text);
    }
    var done := Released(rs);
    if done != [] && !KeyAbove(version, done[0].version) {
      return Err(Error(None, NotNewer));
    }
    if rs == [] || rs[0].version != UNRELEASED || Entries(rs[0]) == [] {
      return Err(Error(None, NothingToRelease));
    }
    if !IsDate(day) {
      return Err(Error(None, BadDate));
    }
    var edited := ReplaceFirst(text, HEAD + "\n", NewTop(version, day));
    var again := ParseLoop(edited);
    if again.Err? {
      return Err(again.error);
    }
    var out := WithLinksLoop(edited, again.value);
    r := Ok(out);
  }

  // ---- a version with a line feed in it ------------------------------------------------

  function OneSection(name: string, en: string, tr: string): seq<Section> {
    [Section(name, [Entry(en, Some(tr))])]
  }

  /** An open changelog that nothing was released from yet. */
  function OpenList(): seq<Release> {
    [Release(UNRELEASED, None, OneSection("Added", "x", "y"))]
  }

  function DoubledList(v1: string, d1: string, v2: string, d2: string): seq<Release> {
    [Release(UNRELEASED, None, []),
     Release(v1, Some(d1), OneSection("Fixed", "a", "b")),
     Release(v2, Some(d2), OneSection("Added", "x", "y"))]
  }

  /** `v1`, closed and dated, then a section of its own, then `v2` left open. */
  function DoubledVersion(v1: string, d1: string, v2: string): string {
    v1 + "] - " + d1 + "\n" + ("\n" + (Unlines(SectionLines(OneSection("Fixed", "a", "b"))) + ("## [" + v2)))
  }

  lemma OneSectionGood(name: string, en: string, tr: string)
    requires name in SECTIONS && GoodText(en) && GoodText(tr)
    ensures GoodSections(OneSection(name, en, tr)) && GoodSection(OneSection(name, en, tr)[0])
  {
  }

  lemma DoubledWellFormed(v1: string, d1: string, v2: string, d2: string)
    requires IsVersion(v1) && IsVersion(v2) && IsDate(d1) && IsDate(d2)
    requires NewerThan(Release(v1, Some(d1), []), Release(v2, Some(d2), []))
    ensures WellFormed(DoubledList(v1, d1, v2, d2)) && WellFormed(OpenList())
  {
    VersionIsNoWord(v1);
    VersionIsNoWord(v2);
    assert GoodText("a") && GoodText("b") && GoodText("x") && GoodText("y");
    OneSectionGood("Fixed", "a", "b");
    OneSectionGood("Added", "x", "y");
    var rs := DoubledList(v1, d1, v2, d2);
    hide IsVersion, IsDate, GoodSections;
  }

  /** The doubled heading, as one string, is two headings with a section between them. */
  lemma DoubledHeading(v1: string, d1: string, v2: string, d2: string)
    ensures HeadingLine(DoubledVersion(v1, d1, v2), Some(d2))
         == HeadingLine(v1, Some(d1))
            + ("\n" + ("\n" + (Unlines(SectionLines(OneSection("Fixed", "a", "b"))) + HeadingLine(v2, Some(d2)))))
  {
    var u := Unlines(SectionLines(OneSection("Fixed", "a", "b")));
    CloseHeading(v1, d1);
    CloseHeading(v2, d2);
    CloseHeading(DoubledVersion(v1, d1, v2), d2);
    hide Unlines, SectionLines, OneSection, HeadingLine;
    var front, h2, tail := v1 + "] - " + d1, "## [" + v2, "] - " + d2;
    RegroupTail(front, "\n", u, h2, tail);
    Assoc(v1, "] - ", d1);
    Assoc("## [", v2, tail);
    Assoc("## [", front, "\n" + ("\n" + (u + (h2 + tail))));
  }

  lemma RegroupTail(front: string, n: string, u: string, h: string, t: string)
    ensures front + n + (n + (u + h)) + t == front + (n + (n + (u + (h + t))))
  {
  }

  lemma CloseHeading(v: string, d: string)
    ensures HeadingLine(v, Some(d)) == "## [" + (v + ("] - " + d))
  {
  }

  /** Lines of a heading, a blank line and what follows. */
  lemma UnlinesHeaded(h: string, ls: seq<string>)
    ensures Unlines([h, ""] + ls) == h + "\n" + ("\n" + Unlines(ls))
  {
  }

  lemma DoubledLines(v1: string, d1: string, v2: string, d2: string)
    requires WellFormed(DoubledList(v1, d1, v2, d2))
    requires GoodSections(OneSection("Added", "x", "y")) && GoodSections(OneSection("Fixed", "a", "b"))
    ensures forall s :: s in OneSection("Added", "x", "y") || s in OneSection("Fixed", "a", "b") ==> GoodSection(s)
    ensures ReleaseLines(DoubledList(v1, d1, v2, d2))
         == [HEAD, ""] + ([HeadingLine(v1, Some(d1)), ""]
              + (SectionLines(OneSection("Fixed", "a", "b"))
                 + ([HeadingLine(v2, Some(d2)), ""] + SectionLines(OneSection("Added", "x", "y")))))
  {
    var f, a := SectionLines(OneSection("Fixed", "a", "b")), SectionLines(OneSection("Added", "x", "y"));
    var rs := DoubledList(v1, d1, v2, d2);
    hide OneSection, HeadingLine;
    assert a + [] == a;
    assert ReleaseLines(rs[2..]) == [HeadingLine(v2, Some(d2)), ""] + a;
    assert rs[1..][1..] == rs[2..];
    assert ReleaseLines(rs[1..]) == [HeadingLine(v1, Some(d1)), ""] + (f + ReleaseLines(rs[2..]));
    assert SectionLines([]) + ReleaseLines(rs[1..]) == ReleaseLines(rs[1..]);
  }

  lemma DoubledText(v1: string, d1: string, v2: string, d2: string)
    requires WellFormed(DoubledList(v1, d1, v2, d2))
    requires GoodSections(OneSection("Added", "x", "y")) && GoodSections(OneSection("Fixed", "a", "b"))
    ensures Unlines(ReleaseLines(DoubledList(v1, d1, v2, d2)))
         == NewTop(DoubledVersion(v1, d1, v2), d2)
            + ("\n" + Unlines(SectionLines(OneSection("Added", "x", "y"))))
  {
    var f, a := SectionLines(OneSection("Fixed", "a", "b")), SectionLines(OneSection("Added", "x", "y"));
    var h1, h2 := HeadingLine(v1, Some(d1)), HeadingLine(v2, Some(d2));
    DoubledLines(v1, d1, v2, d2);
    DoubledHeading(v1, d1, v2, d2);
    hide OneSection, HeadingLine, SectionLines, ReleaseLines, Unlines, WellFormed;
    UnlinesHeaded(HEAD, [h1, ""] + (f + ([h2, ""] + a)));
    UnlinesHeaded(h1, f + ([h2, ""] + a));
    UnlinesAppend(f, [h2, ""] + a);
    UnlinesHeaded(h2, a);
    Regroup(HEAD + "\n", h1, Unlines(f), h2, Unlines(a));
  }

  lemma Regroup(head: string, h1: string, u: string, h2: string, rest: string)
    ensures head + ("\n" + (h1 + "\n" + ("\n" + (u + (h2 + "\n" + ("\n" + rest))))))
         == head + "\n" + ((h1 + ("\n" + ("\n" + (u + h2)))) + "\n") + ("\n" + rest)
  {
  }

  lemma DoubledFacts(v1: string, d1: string, v2: string, d2: string)
    requires IsVersion(v1) && IsVersion(v2) && IsDate(d1) && IsDate(d2)
    requires NewerThan(Release(v1, Some(d1), []), Release(v2, Some(d2), []))
    ensures var text := Unlines(ReleaseLines(OpenList()));
            && Parse(text) == Ok(OpenList()) && Entries(OpenList()[0]) != []
            && Released(OpenList()) == []
            && Parse(Edited(text, DoubledVersion(v1, d1, v2), d2)) == Ok(DoubledList(v1, d1, v2, d2))
  {
    DoubledWellFormed(v1, d1, v2, d2);
    var rs, a := OpenList(), OneSection("Added", "x", "y");
    assert GoodText("a") && GoodText("b") && GoodText("x") && GoodText("y");
    OneSectionGood("Added", "x", "y");
    OneSectionGood("Fixed", "a", "b");
    ParseAlone(rs);
    ParseAlone(DoubledList(v1, d1, v2, d2));
    OpenEntries(rs);
    OpenText();
    DoubledText(v1, d1, v2, d2);
    var rest := "\n" + Unlines(SectionLines(a));
    ReplaceAtStart(HEAD + "\n", rest, NewTop(DoubledVersion(v1, d1, v2), d2));
  }

  lemma ParseAlone(rs: seq<Release>)
    requires WellFormed(rs)
    ensures Parse(Unlines(ReleaseLines(rs))) == Ok(rs)
  {
    ParseWritten([], rs, []);
    var body := ReleaseLines(rs);
    assert [] + (body + []) == body;
  }

  lemma ReplaceAtStart(p: string, rest: string, q: string)
    ensures ReplaceFirst(p + rest, p, q) == q + rest
  {
  }

  lemma OpenText()
    requires WellFormed(OpenList())
    requires GoodSections(OneSection("Added", "x", "y"))
    ensures forall s :: s in OneSection("Added", "x", "y") ==> GoodSection(s)
    ensures Unlines(ReleaseLines(OpenList()))
         == (HEAD + "\n") + ("\n" + Unlines(SectionLines(OneSection("Added", "x", "y"))))
  {
    var rs, a := OpenList(), SectionLines(OneSection("Added", "x", "y"));
    hide OneSection, HeadingLine, Unlines;
    assert a + [] == a;
    assert ReleaseLines(rs) == [HEAD, ""] + a;
    UnlinesHeaded(HEAD, a);
  }

  /**
   Nothing checks the version when no version was released before. With a line feed in it `release`
   succeeds and writes a second released version that nobody asked for.
   */
  lemma NewlineVersionBreaksTheEffect(v1: string, d1: string, v2: string, d2: string)
    requires IsVersion(v1) && IsVersion(v2) && IsDate(d1) && IsDate(d2)
    requires NewerThan(Release(v1, Some(d1), []), Release(v2, Some(d2), []))
    ensures var text := Unlines(ReleaseLines(OpenList()));
            var r := ReleaseText(text, DoubledVersion(v1, d1, v2), d2);
            && r.Ok?
            && Parse(r.value) == Ok(DoubledList(v1, d1, v2, d2))
            && Parse(r.value) != Ok(Effect(OpenList(), DoubledVersion(v1, d1, v2), d2))
  {
    var text, version := Unlines(ReleaseLines(OpenList())), DoubledVersion(v1, d1, v2);
    DoubledFacts(v1, d1, v2, d2);
    DoubledIsNew(v1, d1, v2);
    ParseIsSound(Edited(text, version, d2));
    FirstRelease(text, version, d2, OpenList(), DoubledList(v1, d1, v2, d2));
    DoubledIsNoEffect(v1, d1, v2, d2);
    hide *;
  }

  lemma DoubledIsNoEffect(v1: string, d1: string, v2: string, d2: string)
    ensures DoubledList(v1, d1, v2, d2) != Effect(OpenList(), DoubledVersion(v1, d1, v2), d2)
  {
  }

  lemma DoubledIsNew(v1: string, d1: string, v2: string)
    ensures !HasVersion(OpenList(), DoubledVersion(v1, d1, v2)) && OpenList() != []
    ensures OpenList()[0].version == UNRELEASED
  {
  }

  /** A first release goes by whatever the edited text parses to. */
  lemma FirstRelease(text: string, version: string, day: string, rs: seq<Release>, edited: seq<Release>)
    requires Parse(text) == Ok(rs) && !HasVersion(rs, version) && Released(rs) == []
    requires rs != [] && rs[0].version == UNRELEASED && Entries(rs[0]) != [] && IsDate(day)
    requires Parse(Edited(text, version, day)) == Ok(edited) && WellFormed(edited)
    ensures ReleaseText(text, version, day).Ok?
    ensures Parse(ReleaseText(text, version, day).value) == Ok(edited)
  {
    ReleasedDated(edited);
    WithLinksKeepsMeaning(Edited(text, version, day), edited);
    hide Parse, ReplaceFirst, WithLinks, IsDate, WellFormed, Entries;
  }

  // ---- notes -----------------------------------------------------------------------------

  /** `name in r.sections`, then its heading, its English lines and a blank line. */
  function NotesSections(r: Release, names: seq<string>): seq<string> {
    if names == [] then []
    else
      (if HasSection(r.sections, names[0])
       then [SECTION_PREFIX + names[0]] + (EnglishLines(SectionEntries(r.sections, names[0])) + [""])
       else [])
      + NotesSections(r, names[1..])
  }

  function EnglishLines(es: seq<Entry>): seq<string> {
    if es == [] then [] else [EnglishLine(es[0])] + EnglishLines(es[1..])
  }

  /** What a reader of the notes takes for entries: each with the section heading it stands under. */
  function Read(ls: seq<string>, section: string): seq<(string, string)> {
    if ls == [] then []
    else
      match Classify(ls[0])
      case SectionHead(name) => Read(ls[1..], name)
      case English(text) => [(section, text)] + Read(ls[1..], section)
      case _ => Read(ls[1..], section)
  }

  function EnglishIn(section: string, es: seq<Entry>): seq<(string, string)> {
    seq(|es|, i requires 0 <= i < |es| => (section, es[i].en))
  }

  /** The English text of every entry with its section, in the order of the sections. */
  function EnglishBySection(r: Release, names: seq<string>): seq<(string, string)> {
    if names == [] then []
    else EnglishIn(names[0], SectionEntries(r.sections, names[0])) + EnglishBySection(r, names[1..])
  }

  lemma ReadHeading(line: string, name: string, rest: seq<string>, section: string)
    requires Classify(line) == SectionHead(name)
    ensures Read([line] + rest, section) == Read(rest, name)
  {
  }

  lemma ReadEnglish(line: string, text: string, rest: seq<string>, section: string)
    requires Classify(line) == English(text)
    ensures Read([line] + rest, section) == [(section, text)] + Read(rest, section)
  {
  }

  lemma ReadOther(line: string, rest: seq<string>, section: string)
    requires !Classify(line).English? && !Classify(line).SectionHead?
    ensures Read([line] + rest, section) == Read(rest, section)
  {
  }

  lemma {:induction false} ReadEntries(section: string, es: seq<Entry>, rest: seq<string>)
    requires forall i :: 0 <= i < |es| ==> GoodText(es[i].en)
    ensures Read(EnglishLines(es) + rest, section) == EnglishIn(section, es) + Read(rest, section)
  {
    hide Classify, Read, EnglishLine, GoodText;
    if es == [] {
      assert EnglishLines(es) + rest == rest;
      assert EnglishIn(section, es) + Read(rest, section) == Read(rest, section);
    } else {
      var more := EnglishLines(es[1..]) + rest;
      EnglishLineIsEnglish(es[0].en);
      EnglishLineParts(es[0]);
      ReadEntries(section, es[1..], rest);
      assert EnglishLines(es) + rest == [EnglishLine(es[0])] + more;
      ReadEnglish(EnglishLine(es[0]), es[0].en, more, section);
      assert EnglishIn(section, es) == [(section, es[0].en)] + EnglishIn(section, es[1..]);
    }
  }

  lemma {:induction false} MissingSection(ss: seq<Section>, name: string)
    ensures !HasSection(ss, name) ==> SectionEntries(ss, name) == []
  {
    if ss != [] {
      MissingSection(ss[1..], name);
      assert HasSection(ss[1..], name) ==> HasSection(ss, name);
    }
  }

  lemma {:induction false} SectionEntriesGood(ss: seq<Section>, name: string)
    requires GoodSections(ss)
    ensures forall i :: 0 <= i < |SectionEntries(ss, name)| ==> GoodText(SectionEntries(ss, name)[i].en)
  {
    if ss != [] {
      assert GoodSection(ss[0]);
      SectionEntriesGood(ss[1..], name);
    }
  }

  lemma BlankIsBlank()
    ensures Classify("") == Blank
  {
  }

  lemma ReadSection(name: string, es: seq<Entry>, rest: seq<string>, section: string)
    requires Classify(SECTION_PREFIX + name) == SectionHead(name) && forall i :: 0 <= i < |es| ==> GoodText(es[i].en)
    ensures Read([SECTION_PREFIX + name] + (EnglishLines(es) + [""]) + rest, section)
         == EnglishIn(name, es) + Read(rest, name)
  {
    BlankIsBlank();
    hide Classify, Read, EnglishLines, GoodText, EnglishIn;
    var lines := EnglishLines(es);
    assert [SECTION_PREFIX + name] + (lines + [""]) + rest == [SECTION_PREFIX + name] + (lines + ([""] + rest));
    ReadHeading(SECTION_PREFIX + name, name, lines + ([""] + rest), section);
    ReadEntries(name, es, [""] + rest);
    ReadOther("", rest, name);
  }

  /** The release notes hold the English text of every entry of the version, under its section, and no more. */
  lemma {:induction false} ReadNotes(r: Release, names: seq<string>, section: string, last: string)
    requires GoodSections(r.sections) && forall i :: 0 <= i < |names| ==> names[i] in SECTIONS
    requires !Classify(last).English? && !Classify(last).SectionHead?
    ensures Read(NotesSections(r, names) + [last], section) == EnglishBySection(r, names)
  {
    hide Classify, EnglishLines, EnglishIn, Read;
    if names == [] {
      assert [] + [last] == [last] + [];
      ReadOther(last, [], section);
      ReadNothing(section);
    } else {
      var es, rest := SectionEntries(r.sections, names[0]), NotesSections(r, names[1..]);
      MissingSection(r.sections, names[0]);
      if HasSection(r.sections, names[0]) {
        var block := [SECTION_PREFIX + names[0]] + (EnglishLines(es) + [""]);
        SectionLineIsSection(names[0]);
        SectionEntriesGood(r.sections, names[0]);
        ReadNotes(r, names[1..], names[0], last);
        ReadSection(names[0], es, rest + [last], section);
        assert block + rest + [last] == block + (rest + [last]);
      } else {
        ReadNotes(r, names[1..], section, last);
        NoEnglish(names[0]);
        assert [] + rest == rest && [] + EnglishBySection(r, names[1..]) == EnglishBySection(r, names[1..]);
      }
    }
  }

  lemma ReadNothing(section: string)
    ensures Read([], section) == []
  {
  }

  lemma NoEnglish(section: string)
    ensures EnglishIn(section, []) == []
  {
  }

  // ---- the notes of a version, as text --------------------------------------------------

  const FULL_HISTORY := "Full history: [CHANGELOG.md](" + REPO_URL + "/blob/main/CHANGELOG.md)"

  function FindVersion(rs: seq<Release>, version: string): (r: Option<Release>)
    ensures r.Some? ==> r.value in rs && r.value.version == version
    ensures r.None? <==> !HasVersion(rs, version)
  {
    if rs == [] then None
    else if rs[0].version == version then Some(rs[0])
    else
      assert forall i :: 1 <= i < |rs| ==> rs[i] == rs[1..][i - 1];
      FindVersion(rs[1..], version)
  }

  /** `notes` */
  function NotesText(text: string, version: string): Result<string, Error> {
    match Parse(text)
    case Err(e) => Err(e)
    case Ok(rs) =>
      var r := FindVersion(rs, version);
      if r.None? || Entries(r.value) == [] then Err(Error(None, NoEntries))
      else Ok(Unlines(NotesSections(r.value, SECTIONS) + [FULL_HISTORY]))
  }

  method NotesCommand(text: string, version: string) returns (r: Result<string, Error>)
    ensures r == NotesText(text, version)
  {
    var parsed := ParseLoop(text);
    if parsed.Err? {
      return Err(parsed.error);
    }
    var found := FindVersion(parsed.value, version);
    if found.None? || Entries(found.value) == [] {
      return Err(Error(None, NoEntries));
    }
    hide HasSection, SectionEntries, EnglishLines;
    var out: seq<string>, i := [], 0;
    while i < |SECTIONS|
      invariant 0 <= i <= |SECTIONS|
      invariant out + NotesSections(found.value, SECTIONS[i..]) == NotesSections(found.value, SECTIONS)
    {
      var name := SECTIONS[i];
      ghost var rest := NotesSections(found.value, SECTIONS[i + 1..]);
      assert SECTIONS[i..][0] == name && SECTIONS[i..][1..] == SECTIONS[i + 1..];
      if HasSection(found.value.sections, name) {
        var block := [SECTION_PREFIX + name] + (EnglishLines(SectionEntries(found.value.sections, name)) + [""]);
        Assoc(out, block, rest);
        out := out + block;
      } else {
        assert [] + rest == rest;
      }
      i := i + 1;
    }
    assert out + [] == out;
    r := Ok(Unlines(out + [FULL_HISTORY]));
  }

  lemma {:induction false} EnglishLinesOneLine(es: seq<Entry>)
    requires forall i :: 0 <= i < |es| ==> GoodText(es[i].en)
    ensures AllOneLine(EnglishLines(es))
  {
    hide EnglishLine, OneLine;
    if es != [] {
      EnglishLineIsEnglish(es[0].en);
      assert EnglishLine(es[0]) == EN_PREFIX + es[0].en by {
        EnglishLineParts(es[0]);
      }
      EnglishLinesOneLine(es[1..]);
    }
  }

  lemma EnglishLineParts(e: Entry)
    ensures EnglishLine(e) == EN_PREFIX + e.en
  {
  }

  lemma {:induction false} NotesOneLine(r: Release, names: seq<string>)
    requires GoodSections(r.sections) && forall i :: 0 <= i < |names| ==> names[i] in SECTIONS
    ensures AllOneLine(NotesSections(r, names))
  {
    hide OneLine, GoodSections;
    if names != [] {
      NotesOneLine(r, names[1..]);
      SectionLineIsSection(names[0]);
      SectionEntriesGood(r.sections, names[0]);
      EnglishLinesOneLine(SectionEntries(r.sections, names[0]));
      EmptyIsOneLine();
    }
  }

  lemma IsNeither(line: string)
    requires |line| > 2 && line[0] != '-' && line[0] != '#'
    ensures !Classify(line).English? && !Classify(line).SectionHead?
  {
  }

  lemma OneLineJoined(a: string, b: string)
    requires OneLine(a) && OneLine(b)
    ensures OneLine(a + b)
  {
  }

  lemma HistoryParts()
    ensures OneLine("Full history: [CHANGELOG.md](") && OneLine(REPO_URL) && OneLine("/blob/main/CHANGELOG.md)")
  {
  }

  lemma HistoryLine()
    ensures OneLine(FULL_HISTORY) && !Classify(FULL_HISTORY).English? && !Classify(FULL_HISTORY).SectionHead?
  {
    hide OneLine, Classify;
    HistoryParts();
    OneLineJoined("Full history: [CHANGELOG.md](", REPO_URL);
    OneLineJoined("Full history: [CHANGELOG.md](" + REPO_URL, "/blob/main/CHANGELOG.md)");
    IsNeither(FULL_HISTORY);
  }

  lemma NotesLinesRead(r: Release, last: string)
    requires GoodSections(r.sections) && OneLine(last) && !Classify(last).English? && !Classify(last).SectionHead?
    ensures Read(SplitLines(Unlines(NotesSections(r, SECTIONS) + [last])), "") == EnglishBySection(r, SECTIONS)
  {
    hide Classify, OneLine, NotesSections, Read, EnglishBySection, GoodSections;
    NotesOneLine(r, SECTIONS);
    SplitUnlinesOnly(NotesSections(r, SECTIONS) + [last]);
    ReadNotes(r, SECTIONS, "", last);
  }

  /** Who reads the notes of a version back finds the English text of its entries, each under its section, and no more. */
  lemma NotesReadBack(text: string, version: string)
    ensures NotesText(text, version).Ok? ==>
              exists r :: r in Parse(text).value && r.version == version
                && Read(SplitLines(NotesText(text, version).value), "") == EnglishBySection(r, SECTIONS)
  {
    hide Parse, Classify, OneLine, NotesSections, Read, EnglishBySection, SplitLines, Unlines;
    ParseIsSound(text);
    HistoryLine();
    if NotesText(text, version).Ok? {
      NotesLinesRead(FindVersion(Parse(text).value, version).value, FULL_HISTORY);
    }
  }
}
