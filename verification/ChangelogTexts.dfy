/**
 Exactly which texts are changelogs: what every line is read as, and the lines below the first heading of an accepted
 text, which are those of its release list and nothing else.
 */
module ChangelogTexts {
  import opened Prelude
  import opened Text
  import opened Changelog
  import opened ChangelogFormat
  import opened ChangelogRoundTrip
  import opened ChangelogRelease

  // ---- what a line is read as --------------------------------------------------------------------------

  lemma PartOneLine(a: string, b: string)
    ensures OneLine(a + b) <==> OneLine(a) && OneLine(b)
  {
    assert forall i :: 0 <= i < |a| ==> (a + b)[i] == a[i];
    assert forall i :: 0 <= i < |b| ==> (a + b)[|a| + i] == b[i];
  }

  lemma AfterPrefix(line: string, prefix: string, t: string)
    ensures TextAfter(line, prefix) == Some(t) <==> line == prefix + t && t != "" && !IsSpace(t[0])
  {
    if line == prefix + t {
      StartsWithAppend(prefix, t);
    }
    if TextAfter(line, prefix) == Some(t) {
      assert line == line[..|prefix|] + line[|prefix|..];
    }
  }

  lemma EnglishExactly(line: string, t: string)
    requires OneLine(line)
    ensures Classify(line) == English(t) <==> line == "- " + t && t != "" && !IsSpace(t[0])
  {
    AfterPrefix(line, EN_PREFIX, t);
    if line == "- " + t && t != "" && !IsSpace(t[0]) {
      PartOneLine("- ", t);
      EnglishLineIsEnglish(t);
    }
  }

  lemma TranslationExactly(line: string, t: string)
    requires OneLine(line)
    ensures Classify(line) == Translation(t) <==> line == "  - SR: " + t && t != "" && !IsSpace(t[0])
  {
    AfterPrefix(line, TR_PREFIX, t);
    if line == "  - SR: " + t && t != "" && !IsSpace(t[0]) {
      PartOneLine("  - SR: ", t);
      TranslationLineIsTranslation(t);
    }
  }

  lemma SectionExactly(line: string, name: string)
    ensures Classify(line) == SectionHead(name) <==> line == "### " + name && name != ""
  {
    if line == "### " + name && name != "" {
      StartsWithAppend(SECTION_PREFIX, name);
      NotBlank(line, 0);
      HashIsNoLink(line);
      NotAHeading(line);
      ClassifySection(line);
    }
    if Classify(line) == SectionHead(name) {
      SectionStart(line);
      assert line == line[..4] + line[4..];
    }
  }

  lemma SectionStart(line: string)
    requires Classify(line).SectionHead?
    ensures StartsWith(line, "### ") && |line| > 4 && Classify(line).name == line[4..]
  {
    hide IsBlank, IsLink, HeadingOf, TextAfter;
  }

  lemma HeadingText(line: string, v: string, date: Option<string>)
    requires HeadingOf(line) == Some((v, date))
    ensures line == HeadingLine(v, date) && IsVersionTag(v) && (date.Some? ==> IsDateShape(date.value))
  {
    hide IsVersionTag, IsDateShape;
    var rest := line[4..];
    var j := IndexOf(rest, ']');
    assert line == "## [" + rest;
    assert rest == rest[..j] + "]" + rest[j + 1..];
    if date.Some? {
      assert rest[j + 1..] == " - " + rest[j + 1..][3..];
    }
  }

  lemma HeadingExactly(line: string, v: string, date: Option<string>)
    ensures Classify(line) == Heading(v, date)
       <==> && line == "## [" + v + "]" + (if date.Some? then " - " + date.value else "")
            && (v == "Unreleased" || IsVersion(v)) && (date.Some? ==> IsDateShape(date.value))
  {
    if Classify(line) == Heading(v, date) {
      HeadingFound(line, v, date);
      HeadingText(line, v, date);
    }
    hide Classify, IsVersion, IsDateShape;
    if IsVersionTag(v) && (date.Some? ==> IsDateShape(date.value)) {
      HeadingLineIsHeading(v, date);
    }
  }

  lemma HeadingFound(line: string, v: string, date: Option<string>)
    requires Classify(line) == Heading(v, date)
    ensures HeadingOf(line) == Some((v, date))
  {
    hide IsBlank, IsLink, HeadingOf, TextAfter, StartsWith;
  }

  lemma LinkText(line: string) returns (v: string, url: string)
    requires IsLink(line)
    ensures line == "[" + v + "]: " + url && IsVersionTag(v) && url != "" && NoSpace(url)
  {
    hide IsVersionTag, NoSpace;
    var rest := line[1..];
    var j := IndexOf(rest, ']');
    v, url := rest[..j], rest[j + 3..];
    assert rest[j..][3..] == url && |rest[j..]| > 3;
    hide IndexOf, IsLink;
    LinkPieces(line, j);
  }

  lemma LinkPieces(line: string, j: nat)
    requires StartsWith(line, "[") && j + 1 < |line| && StartsWith(line[1..][j..], "]: ")
    ensures j + 3 <= |line[1..]| && line == "[" + line[1..][..j] + "]: " + line[1..][j + 3..]
  {
    var rest := line[1..];
    assert line == "[" + rest;
    assert rest[j..] == "]: " + rest[j + 3..];
    assert rest == rest[..j] + rest[j..];
  }

  lemma LinkExactly(line: string)
    ensures Classify(line) == Link
       <==> exists v, url :: line == "[" + v + "]: " + url && (v == "Unreleased" || IsVersion(v)) && url != "" && NoSpace(url)
  {
    hide *;
    if Classify(line) == Link {
      var v, url := LinkRead(line);
    }
    if v, url :| line == "[" + v + "]: " + url && (v == "Unreleased" || IsVersion(v)) && url != "" && NoSpace(url) {
      LinkReads(v, url);
    }
  }

  lemma LinkRead(line: string) returns (v: string, url: string)
    requires Classify(line) == Link
    ensures line == "[" + v + "]: " + url && (v == "Unreleased" || IsVersion(v)) && url != "" && NoSpace(url)
  {
    LinkFound(line);
    v, url := LinkText(line);
  }

  lemma LinkReads(v: string, url: string)
    requires (v == "Unreleased" || IsVersion(v)) && url != "" && NoSpace(url)
    ensures Classify("[" + v + "]: " + url) == Link
  {
    hide Classify, NoSpace, IsVersion;
    LinkLineIsLink(v, url);
    LinkLineText(v, url);
  }

  lemma LinkFound(line: string)
    requires Classify(line) == Link
    ensures IsLink(line) && !IsBlank(line)
  {
    hide IsBlank, IsLink, HeadingOf, TextAfter, StartsWith;
  }

  lemma LinkLineText(v: string, url: string)
    ensures LinkLine(v, url) == "[" + v + "]: " + url
  {
    assert "]" + (": " + url) == "]: " + url;
  }

  // ---- the lines of a release list ----------------------------------------------------------------------

  function EntryText(e: Entry): seq<string> {
    ["- " + e.en] + if e.tr.Some? then ["  - SR: " + e.tr.value] else []
  }

  function EntriesText(es: seq<Entry>): seq<string> {
    if es == [] then [] else EntriesText(Front(es)) + EntryText(Last(es))
  }

  function SectionsText(ss: seq<Section>): seq<string> {
    if ss == [] then [] else SectionsText(Front(ss)) + ["### " + Last(ss).name] + EntriesText(Last(ss).entries)
  }

  /** The lines that say what is in these releases, in their order, without blank lines. */
  function ReleasesText(rs: seq<Release>): seq<string> {
    if rs == [] then []
    else
      var r := Last(rs);
      ReleasesText(Front(rs))
      + ["## [" + r.version + "]" + if r.date.Some? then " - " + r.date.value else ""]
      + SectionsText(r.sections)
  }

  /** The lines that are not blank. */
  function Solid(ls: seq<string>): seq<string> {
    if ls == [] then [] else Solid(Front(ls)) + if IsBlank(Last(ls)) then [] else [Last(ls)]
  }

  lemma EntriesSnoc(es: seq<Entry>, e: Entry)
    ensures EntriesText(es + [e]) == EntriesText(es) + EntryText(e)
  {
    assert Front(es + [e]) == es;
  }

  lemma SectionsSnoc(ss: seq<Section>, s: Section)
    ensures SectionsText(ss + [s]) == SectionsText(ss) + ["### " + s.name] + EntriesText(s.entries)
  {
    assert Front(ss + [s]) == ss;
  }

  lemma ReleasesSnoc(rs: seq<Release>, r: Release)
    ensures ReleasesText(rs + [r])
         == ReleasesText(rs) + ["## [" + r.version + "]" + if r.date.Some? then " - " + r.date.value else ""] + SectionsText(r.sections)
  {
    assert Front(rs + [r]) == rs;
  }

  lemma SectionLonger(ss: seq<Section>, s: Section, es: seq<Entry>, line: string)
    requires EntriesText(es) == EntriesText(s.entries) + [line]
    ensures SectionsText(ss + [s.(entries := es)]) == SectionsText(ss + [s]) + [line]
  {
    hide EntriesText;
    SectionsSnoc(ss, s);
    SectionsSnoc(ss, s.(entries := es));
    Assoc(SectionsText(ss) + ["### " + s.name], EntriesText(s.entries), [line]);
  }

  lemma ReleaseLonger(rs: seq<Release>, r: Release, ss: seq<Section>, line: string)
    requires SectionsText(ss) == SectionsText(r.sections) + [line]
    ensures ReleasesText(rs + [r.(sections := ss)]) == ReleasesText(rs + [r]) + [line]
  {
    hide SectionsText;
    ReleasesSnoc(rs, r);
    ReleasesSnoc(rs, r.(sections := ss));
    Assoc(ReleasesText(rs) + ["## [" + r.version + "]" + if r.date.Some? then " - " + r.date.value else ""], SectionsText(r.sections), [line]);
  }

  lemma FrontLast<T>(s: seq<T>)
    requires s != []
    ensures s == Front(s) + [Last(s)]
  {
  }

  /** Adding a line to the open section. */
  lemma SecLonger(st: State, es: seq<Entry>, line: string)
    requires st.Valid() && st.open && EntriesText(es) == EntriesText(st.Sec()) + [line]
    ensures ReleasesText(st.WithSec(es).releases) == ReleasesText(st.releases) + [line]
  {
    hide EntriesText, SectionsText, ReleasesText;
    var r := Last(st.releases);
    FrontLast(st.releases);
    FrontLast(r.sections);
    SectionLonger(Front(r.sections), Last(r.sections), es, line);
    ReleaseLonger(Front(st.releases), r, Front(r.sections) + [Last(r.sections).(entries := es)], line);
  }

  lemma OpensSection(st: State, name: string)
    requires StepPrecondition(st) && StepSection(st, name).Ok?
    ensures ReleasesText(StepSection(st, name).value.releases) == ReleasesText(st.releases) + ["### " + name]
  {
    hide EntriesText, SectionsText, ReleasesText;
    var r, s := Last(st.releases), Section(name, []);
    FrontLast(st.releases);
    SectionsSnoc(r.sections, s);
    NoEntriesText();
    assert SectionsText(r.sections) + ["### " + name] + [] == SectionsText(r.sections) + ["### " + name];
    ReleaseLonger(Front(st.releases), r, r.sections + [s], "### " + name);
  }

  predicate StepPrecondition(st: State) {
    st.Valid() && st.releases != []
  }

  lemma NoEntriesText()
    ensures EntriesText([]) == [] && SectionsText([]) == [] && ReleasesText([]) == []
  {
  }

  lemma OpensRelease(rs: seq<Release>, v: string, date: Option<string>, line: string)
    requires line == "## [" + v + "]" + if date.Some? then " - " + date.value else ""
    ensures ReleasesText(rs + [Release(v, date, [])]) == ReleasesText(rs) + [line]
  {
    ReleasesSnoc(rs, Release(v, date, []));
    NoEntriesText();
    hide ReleasesText;
    assert ReleasesText(rs) + [line] + [] == ReleasesText(rs) + [line];
  }

  lemma AddsEnglish(st: State, t: string)
    requires st.Valid() && StepEnglish(st, t).Ok?
    ensures ReleasesText(StepEnglish(st, t).value.releases) == ReleasesText(st.releases) + ["- " + t]
  {
    EntriesSnoc(st.Sec(), Entry(t, None));
    assert EntryText(Entry(t, None)) == ["- " + t];
    hide EntriesText, ReleasesText, EntryText;
    SecLonger(st, st.Sec() + [Entry(t, None)], "- " + t);
  }

  lemma AddsTranslation(st: State, t: string)
    requires st.Valid() && StepTranslation(st, t).Ok?
    ensures ReleasesText(StepTranslation(st, t).value.releases) == ReleasesText(st.releases) + ["  - SR: " + t]
  {
    var es, e := Front(st.Sec()), Last(st.Sec());
    FrontLast(st.Sec());
    EntriesSnoc(es, e);
    EntriesSnoc(es, e.(tr := Some(t)));
    assert EntryText(e.(tr := Some(t))) == EntryText(e) + ["  - SR: " + t];
    hide EntriesText, ReleasesText, EntryText;
    Assoc(EntriesText(es), EntryText(e), ["  - SR: " + t]);
    SecLonger(st, es + [e.(tr := Some(t))], "  - SR: " + t);
  }

  /** A line the loop takes and that is not blank and no link is the next line of the releases read so far. */
  lemma StepWrites(st: State, line: string)
    requires st.Valid() && OneLine(line) && Step(st, Classify(line)).Ok? && !Classify(line).Blank? && !Classify(line).Link?
    ensures !st.links && !Step(st, Classify(line)).value.links
    ensures ReleasesText(Step(st, Classify(line)).value.releases) == ReleasesText(st.releases) + [line]
  {
    var k := Classify(line);
    hide Classify, ReleasesText, IsVersion, IsDateShape, IsDate;
    match k
    case Heading(v, date) =>
      HeadingExactly(line, v, date);
      OpensRelease(st.releases, v, date, line);
    case SectionHead(name) =>
      SectionExactly(line, name);
      OpensSection(st, name);
    case Translation(t) =>
      TranslationExactly(line, t);
      AddsTranslation(st, t);
    case English(t) =>
      EnglishExactly(line, t);
      AddsEnglish(st, t);
    case _ =>
  }

  // ---- the loop reads what is written -----------------------------------------------------------------------

  /** The solid lines are those of the releases, then links, which there are once `links` says so. */
  predicate IsText(solid: seq<string>, st: State) {
    var w := ReleasesText(st.releases);
    w <= solid && (forall i :: |w| <= i < |solid| ==> IsLink(solid[i])) && (st.links <==> |w| < |solid|)
  }

  lemma FoldSnoc(ls: seq<string>, n: nat, st: State)
    requires st.Valid() && ls != [] && Fold(ls, n, st).Ok?
    ensures Fold(Front(ls), n, st).Ok?
    ensures var mid := Fold(Front(ls), n, st).value;
            Step(mid, Classify(Last(ls))).Ok? && Fold(ls, n, st) == Ok(Step(mid, Classify(Last(ls))).value)
  {
    FrontLast(ls);
    FoldPrefixOk(Front(ls), [Last(ls)], n, st);
    FoldAppend(Front(ls), [Last(ls)], n, st);
    hide Classify;
    assert [Last(ls)][1..] == [];
  }

  lemma BlankOrNot(line: string)
    ensures Classify(line).Blank? <==> IsBlank(line)
    ensures Classify(line).Link? ==> IsLink(line)
  {
    hide IsBlank, IsLink, HeadingOf, TextAfter, StartsWith;
  }

  lemma {:induction false} FoldReads(ls: seq<string>, n: nat)
    requires AllOneLine(ls) && Fold(ls, n, INIT).Ok?
    ensures IsText(Solid(ls), Fold(ls, n, INIT).value)
  {
    hide Classify, IsLink, IsBlank, ReleasesText, Fold;
    if ls == [] {
      FoldOfNone(n);
      NoEntriesText();
    } else {
      FoldSnoc(ls, n, INIT);
      FoldReads(Front(ls), n);
      var line := Last(ls);
      BlankOrNot(line);
      var mid := Fold(Front(ls), n, INIT).value;
      if !Classify(line).Blank? && !Classify(line).Link? {
        StepWrites(mid, line);
      }
    }
  }

  lemma FoldOfNone(n: nat)
    ensures Fold([], n, INIT) == Ok(INIT)
  {
  }

  // ---- and takes what is written ------------------------------------------------------------------------------

  /** Blank lines make no difference to the loop. */
  lemma {:induction false} FoldSolid(ls: seq<string>, n: nat, m: nat, st: State)
    requires st.Valid()
    ensures Fold(ls, n, st).Ok? <==> Fold(Solid(ls), m, st).Ok?
    ensures Fold(ls, n, st).Ok? ==> Fold(Solid(ls), m, st) == Fold(ls, n, st)
    decreases |ls|
  {
    hide Classify, IsBlank, Step;
    if ls != [] {
      var front, l := Front(ls), Last(ls);
      FrontLast(ls);
      FoldSolid(front, n, m, st);
      if Fold(front, n, st).Ok? {
        FoldAppend(front, [l], n, st);
        FoldAppend(Solid(front), [l], m, st);
        BlankOrNot(l);
        OneLineFold(l, n + |front|, Fold(front, n, st).value);
        OneLineFold(l, m + |Solid(front)|, Fold(front, n, st).value);
        assert Solid(front) + [] == Solid(front);
        hide Fold;
      } else {
        FoldStuck(front, [l], n, st);
        FoldStuck(Solid(front), if IsBlank(l) then [] else [l], m, st);
      }
    }
  }

  lemma OneLineFold(l: string, n: nat, st: State)
    requires st.Valid()
    ensures Fold([l], n, st).Ok? <==> Step(st, Classify(l)).Ok?
    ensures Fold([l], n, st).Ok? ==> Fold([l], n, st) == Ok(Step(st, Classify(l)).value)
    ensures Classify(l).Blank? ==> Fold([l], n, st) == Ok(st)
  {
    hide Classify;
    assert [l][1..] == [];
  }

  lemma FoldStuck(a: seq<string>, b: seq<string>, n: nat, st: State)
    requires st.Valid() && Fold(a, n, st).Err?
    ensures Fold(a + b, n, st).Err?
  {
    if Fold(a + b, n, st).Ok? {
      FoldPrefixOk(a, b, n, st);
    }
  }

  lemma {:induction false} SolidConcat(a: seq<string>, b: seq<string>)
    ensures Solid(a + b) == Solid(a) + Solid(b)
    decreases |b|
  {
    hide IsBlank;
    if b == [] {
      assert a + b == a;
    } else {
      SolidConcat(a, Front(b));
      assert Front(a + b) == a + Front(b) && Last(a + b) == Last(b);
    }
  }

  /** The written form, without its blank lines. */
  lemma WrittenIsText(rs: seq<Release>)
    requires WellFormed(rs)
    ensures Solid(ReleaseLines(rs)) == ReleasesText(rs)
  {
    assert GoodTitles(rs, 0);
    ReleaseLinesOneLine(rs);
    var m, last := FoldReleases([], rs, false, [], 0);
    assert ReleaseLines(rs) + [] == ReleaseLines(rs) && [] + rs == rs;
    hide ReleaseLines, WellFormed, GoodTitles, Solid, ReleasesText, IsLink;
    FoldEnd(m, State(rs, last, false));
    FoldReads(ReleaseLines(rs), 0);
    assert Fold(ReleaseLines(rs), 0, INIT) == Ok(State(rs, last, false));
  }

  lemma FoldEnd(n: nat, st: State)
    requires st.Valid()
    ensures Fold([], n, st) == Ok(st)
  {
  }

  /** Solid lines that are those of a well-formed list, then links. */
  predicate AreLinesOf(solid: seq<string>, rs: seq<Release>) {
    ReleasesText(rs) <= solid && forall i :: |ReleasesText(rs)| <= i < |solid| ==> IsLink(solid[i])
  }

  lemma {:induction false} LinksAreSolid(links: seq<string>)
    requires forall i :: 0 <= i < |links| ==> IsLink(links[i])
    ensures Solid(links) == links && forall i :: 0 <= i < |links| ==> Classify(links[i]).Link?
  {
    hide Classify, IsLink, IsBlank;
    if links != [] {
      LinksAreSolid(Front(links));
      FrontLast(links);
      LinkIsSolid(Last(links));
    }
  }

  lemma LinkIsSolid(line: string)
    requires IsLink(line)
    ensures !IsBlank(line) && Classify(line).Link?
  {
    assert line[0] == '[';
    NotBlank(line, 0);
  }

  lemma TextIsTaken(solid: seq<string>, rs: seq<Release>, n: nat)
    requires WellFormed(rs) && AreLinesOf(solid, rs)
    ensures Fold(solid, n, INIT).Ok? && Fold(solid, n, INIT).value.releases == rs
  {
    var w := ReleasesText(rs);
    var links := solid[|w|..];
    assert solid == w + links;
    assert GoodTitles(rs, 0);
    hide IsLink, Classify, Fold, ReleaseLines, WellFormed;
    LinksAreSolid(links);
    var m, last := FoldReleases([], rs, false, links, n);
    assert [] + rs == rs;
    FoldTrailer(links, m, State(rs, last, false));
    FoldSolid(ReleaseLines(rs) + links, n, n, INIT);
    SolidConcat(ReleaseLines(rs), links);
    WrittenIsText(rs);
  }

  /**
   The texts the parser accepts, and what it gives for them: below the first heading stand, apart from blank lines,
   exactly the lines of a well-formed list, and after them nothing but links.
   */
  lemma {:induction false} AcceptedTexts(text: string, rs: seq<Release>)
    ensures var ls := SplitLines(text);
            Parse(text) == Ok(rs) <==> WellFormed(rs) && AreLinesOf(Solid(ls[FirstHeading(ls, 0)..]), rs)
  {
    hide *;
    if Parse(text) == Ok(rs) {
      AcceptedIsText(text, rs);
    }
    if WellFormed(rs) && AreLinesOf(Solid(SplitLines(text)[FirstHeading(SplitLines(text), 0)..]), rs) {
      TextIsAccepted(text, rs);
    }
  }

  lemma {:induction false} AcceptedIsText(text: string, rs: seq<Release>)
    requires Parse(text) == Ok(rs)
    ensures WellFormed(rs) && AreLinesOf(Solid(SplitLines(text)[FirstHeading(SplitLines(text), 0)..]), rs)
  {
    var ls := SplitLines(text);
    var start := FirstHeading(ls, 0);
    ParseIsSound(text);
    hide Fold, Problem, Classify, FirstHeading, SplitLines, Solid, ReleasesText, IsLink, WellFormed;
    FoldReads(ls[start..], start + 1);
  }

  lemma {:induction false} TextIsAccepted(text: string, rs: seq<Release>)
    requires WellFormed(rs) && AreLinesOf(Solid(SplitLines(text)[FirstHeading(SplitLines(text), 0)..]), rs)
    ensures Parse(text) == Ok(rs)
  {
    var ls := SplitLines(text);
    var start := FirstHeading(ls, 0);
    var body := ls[start..];
    ReleasedDated(rs);
    CompleteChecks(rs);
    hide Fold, Problem, Classify, FirstHeading, SplitLines, Solid, ReleasesText, IsLink;
    TextHasHeading(rs);
    SolidOfNone();
    TextIsTaken(Solid(body), rs, start + 1);
    FoldSolid(body, start + 1, start + 1, INIT);
    hide WellFormed, AreLinesOf;
  }

  lemma TextHasHeading(rs: seq<Release>)
    requires rs != []
    ensures ReleasesText(rs) != []
  {
  }

  lemma SolidOfNone()
    ensures Solid([]) == []
  {
  }
}
