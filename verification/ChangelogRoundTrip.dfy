/** The parser of changelog.py accepts exactly the documented format, and inverts it. */
module ChangelogRoundTrip {
  import opened Prelude
  import opened Text
  import opened Changelog
  import opened ChangelogFormat

  // ---- reading what was written --------------------------------------------------

  lemma FoldCons(l: string, rest: seq<string>, n: nat, st: State, next: State)
    requires st.Valid() && Step(st, Classify(l)) == Ok(next)
    ensures Fold([l] + rest, n, st) == Fold(rest, n + 1, next)
  {
  }

  /** The loop inside section `name` of release (version, date), with `es` read so far. */
  function InSection(done: seq<Release>, r: Release, name: string, es: seq<Entry>): State {
    State(done + [r.(sections := r.sections + [Section(name, es)])], true, false)
  }

  function AfterSections(done: seq<Release>, r: Release, open: bool): State {
    State(done + [r], open, false)
  }

  predicate Translated(es: seq<Entry>) {
    forall i :: 0 <= i < |es| ==> GoodText(es[i].en) && es[i].tr.Some? && GoodText(es[i].tr.value)
  }

  lemma StepEntry(done: seq<Release>, r: Release, name: string, es: seq<Entry>, e: Entry)
    requires Translated(es) && GoodText(e.en) && e.tr.Some?
    ensures var half := InSection(done, r, name, es + [Entry(e.en, None)]);
            && Step(InSection(done, r, name, es), English(e.en)) == Ok(half)
            && Step(half, Translation(e.tr.value)) == Ok(InSection(done, r, name, es + [e]))
  {
  }

  lemma PairFirst<T>(a: T, b: T, tl: seq<T>, rest: seq<T>)
    ensures [a, b] + tl + rest == [a] + ([b] + (tl + rest))
  {
  }

  lemma EntryLinesSplit(es: seq<Entry>, rest: seq<string>)
    requires es != [] && forall i :: 0 <= i < |es| ==> es[i].tr.Some?
    ensures EntryLines(es) + rest
         == [EnglishLine(es[0])] + ([TranslationLine(es[0])] + (EntryLines(es[1..]) + rest))
  {
    hide EnglishLine, TranslationLine;
    PairFirst(EnglishLine(es[0]), TranslationLine(es[0]), EntryLines(es[1..]), rest);
  }

  lemma FoldEntry(
      done: seq<Release>, r: Release, name: string, es: seq<Entry>, e: Entry, tail: seq<string>, n: nat)
    requires Translated(es) && GoodText(e.en) && e.tr.Some? && GoodText(e.tr.value)
    ensures Fold([EnglishLine(e)] + ([TranslationLine(e)] + tail), n, InSection(done, r, name, es))
         == Fold(tail, n + 2, InSection(done, r, name, es + [e]))
  {
    EnglishLineIsEnglish(e.en);
    TranslationLineIsTranslation(e.tr.value);
    StepEntry(done, r, name, es, e);
    var half := InSection(done, r, name, es + [Entry(e.en, None)]);
    FoldCons(EnglishLine(e), [TranslationLine(e)] + tail, n, InSection(done, r, name, es), half);
    FoldCons(TranslationLine(e), tail, n + 1, half, InSection(done, r, name, es + [e]));
  }

  lemma {:induction false} FoldEntries(
      done: seq<Release>, r: Release, name: string, es: seq<Entry>, more: seq<Entry>,
      rest: seq<string>, n: nat)
    requires Translated(es) && Translated(more)
    ensures Fold(EntryLines(more) + rest, n, InSection(done, r, name, es))
         == Fold(rest, n + 2 * |more|, InSection(done, r, name, es + more))
    decreases |more|
  {
    hide Fold, EnglishLine, TranslationLine;
    if more == [] {
      assert es + more == es && EntryLines(more) + rest == rest;
    } else {
      EntryLinesSplit(more, rest);
      FoldEntry(done, r, name, es, more[0], EntryLines(more[1..]) + rest, n);
      FoldEntries(done, r, name, es + [more[0]], more[1..], rest, n + 2);
      Assoc(es, [more[0]], more[1..]);
      assert [more[0]] + more[1..] == more;
    }
  }

  lemma FoldBlank(rest: seq<string>, n: nat, st: State)
    requires st.Valid()
    ensures Fold([""] + rest, n, st) == Fold(rest, n + 1, st)
  {
  }

  lemma StepNewSection(done: seq<Release>, r: Release, name: string, open: bool)
    requires name in SECTIONS && !HasSection(r.sections, name)
    requires AfterSections(done, r, open).Valid()
    ensures Step(AfterSections(done, r, open), SectionHead(name)) == Ok(InSection(done, r, name, []))
  {
  }

  function SectionsLength(ss: seq<Section>): nat {
    if ss == [] then 0 else 2 + 2 * |ss[0].entries| + SectionsLength(ss[1..])
  }

  lemma SectionLinesSplit(ss: seq<Section>, rest: seq<string>)
    requires ss != [] && forall i :: 0 <= i < |ss| ==> GoodSection(ss[i])
    ensures forall i :: 0 <= i < |ss[0].entries| ==> ss[0].entries[i].tr.Some?
    ensures SectionLines(ss) + rest
         == [SectionLine(ss[0])] + (EntryLines(ss[0].entries) + ([""] + (SectionLines(ss[1..]) + rest)))
  {
    assert GoodSection(ss[0]);
    hide SectionLine, EntryLines;
    SplitFour([SectionLine(ss[0])], EntryLines(ss[0].entries), [""], SectionLines(ss[1..]), rest);
  }

  lemma SplitFour(a: seq<string>, b: seq<string>, c: seq<string>, d: seq<string>, e: seq<string>)
    ensures a + (b + (c + d)) + e == a + (b + (c + (d + e)))
  {
  }

  lemma SectionOpens(done: seq<Release>, r: Release, s: Section, open: bool)
    requires GoodSection(s) && !HasSection(r.sections, s.name) && (open ==> r.sections != [])
    ensures AfterSections(done, r, open).Valid()
    ensures Step(AfterSections(done, r, open), Classify(SectionLine(s))) == Ok(InSection(done, r, s.name, []))
    ensures InSection(done, r, s.name, s.entries) == AfterSections(done, r.(sections := r.sections + [s]), true)
  {
    SectionLineIsSection(s.name);
    hide Classify, HasSection;
    StepNewSection(done, r, s.name, open);
  }

  lemma FoldSectionBody(done: seq<Release>, r: Release, s: Section, tail: seq<string>, n: nat)
    requires Translated(s.entries)
    ensures Fold(EntryLines(s.entries) + ([""] + tail), n, InSection(done, r, s.name, []))
         == Fold(tail, n + 1 + 2 * |s.entries|, InSection(done, r, s.name, s.entries))
  {
    hide Fold, EntryLines;
    FoldEntries(done, r, s.name, [], s.entries, [""] + tail, n);
    assert [] + s.entries == s.entries;
    FoldBlank(tail, n + 2 * |s.entries|, InSection(done, r, s.name, s.entries));
  }

  lemma FoldSection(done: seq<Release>, r: Release, s: Section, open: bool, tail: seq<string>, n: nat)
    requires GoodSection(s) && Translated(s.entries) && !HasSection(r.sections, s.name)
    requires open ==> r.sections != []
    ensures Fold([SectionLine(s)] + (EntryLines(s.entries) + ([""] + tail)), n, AfterSections(done, r, open))
         == Fold(tail, n + 2 + 2 * |s.entries|,
                 AfterSections(done, r.(sections := r.sections + [s]), true))
  {
    hide Fold, Step, Classify, EntryLines, SectionLine, GoodSection, AfterSections, InSection, HasSection;
    SectionOpens(done, r, s, open);
    FoldCons(SectionLine(s), EntryLines(s.entries) + ([""] + tail), n,
             AfterSections(done, r, open), InSection(done, r, s.name, []));
    FoldSectionBody(done, r, s, tail, n + 1);
  }

  lemma NextSection(ss: seq<Section>, s: Section, more: seq<Section>)
    requires GoodSections(ss + ([s] + more))
    ensures GoodSection(s) && Translated(s.entries) && !HasSection(ss, s.name)
    ensures GoodSections(ss + [s] + more) && ss + [s] + more == ss + ([s] + more)
  {
    var all := ss + ([s] + more);
    assert all[|ss|] == s;
    assert forall i :: 0 <= i < |ss| ==> all[i] == ss[i];
    assert ss + [s] + more == all;
  }

  lemma {:induction false} FoldSections(
      done: seq<Release>, r: Release, more: seq<Section>, open: bool, rest: seq<string>, n: nat)
    requires GoodSections(r.sections + more) && (open ==> r.sections != [])
    requires forall i :: 0 <= i < |more| ==> GoodSection(more[i])
    ensures Fold(SectionLines(more) + rest, n, AfterSections(done, r, open))
         == Fold(rest, n + SectionsLength(more),
                 AfterSections(done, r.(sections := r.sections + more), open || more != []))
    decreases |more|
  {
    hide Fold, SectionLine, EntryLines, GoodSections;
    if more == [] {
      assert r.sections + more == r.sections && SectionLines(more) + rest == rest;
    } else {
      var s, tail := more[0], SectionLines(more[1..]) + rest;
      assert [s] + more[1..] == more;
      NextSection(r.sections, s, more[1..]);
      SectionLinesSplit(more, rest);
      FoldSection(done, r, s, open, tail, n);
      FoldSections(done, r.(sections := r.sections + [s]), more[1..], true, rest, n + 2 + 2 * |s.entries|);
    }
  }

  predicate GoodTitles(rs: seq<Release>, first: nat) {
    forall i :: 0 <= i < |rs| ==>
      TitleShape(rs[i]) && GoodSections(rs[i].sections) && (i + first > 0 ==> rs[i].version != UNRELEASED)
  }

  lemma StepTitle(done: seq<Release>, r: Release, open: bool)
    requires TitleShape(r) && (done != [] ==> r.version != UNRELEASED)
    requires State(done, open, false).Valid()
    ensures Classify(HeadingLine(r.version, r.date)) == Heading(r.version, r.date)
    ensures Step(State(done, open, false), Heading(r.version, r.date))
         == Ok(AfterSections(done, r.(sections := []), false))
  {
    HeadingLineIsHeading(r.version, r.date);
  }

  lemma ReleaseLinesSplit(rs: seq<Release>, rest: seq<string>)
    requires rs != [] && forall i :: 0 <= i < |rs| ==> GoodSections(rs[i].sections)
    ensures forall i :: 0 <= i < |rs[0].sections| ==> GoodSection(rs[0].sections[i])
    ensures ReleaseLines(rs) + rest
         == [HeadingLine(rs[0].version, rs[0].date)]
            + ([""] + (SectionLines(rs[0].sections) + (ReleaseLines(rs[1..]) + rest)))
  {
    assert GoodSections(rs[0].sections);
    var h, ss, tl := HeadingLine(rs[0].version, rs[0].date), SectionLines(rs[0].sections), ReleaseLines(rs[1..]);
    Assoc([h, ""], ss + tl, rest);
    Assoc(ss, tl, rest);
    Assoc([h], [""], ss + (tl + rest));
    assert [h] + [""] == [h, ""];
  }

  lemma FoldRelease(done: seq<Release>, r: Release, open: bool, tail: seq<string>, n: nat) returns (m: nat)
    requires TitleShape(r) && GoodSections(r.sections) && (done != [] ==> r.version != UNRELEASED)
    requires State(done, open, false).Valid()
    ensures Fold([HeadingLine(r.version, r.date)] + ([""] + (SectionLines(r.sections) + tail)), n, State(done, open, false))
         == Fold(tail, m, AfterSections(done, r, r.sections != []))
  {
    hide Fold, HeadingLine, SectionLines, Step, Classify;
    var empty := r.(sections := []);
    StepTitle(done, r, open);
    FoldCons(HeadingLine(r.version, r.date), [""] + (SectionLines(r.sections) + tail), n,
             State(done, open, false), AfterSections(done, empty, false));
    FoldBlank(SectionLines(r.sections) + tail, n + 1, AfterSections(done, empty, false));
    assert [] + r.sections == r.sections;
    FoldSections(done, empty, r.sections, false, tail, n + 2);
    m := n + 2 + SectionsLength(r.sections);
  }

  lemma RestIsGood(done: seq<Release>, more: seq<Release>)
    requires more != [] && GoodTitles(more, |done|)
    ensures GoodTitles(more[1..], |done + [more[0]]|)
  {
    hide TitleShape, GoodSections;
  }

  lemma {:induction false} FoldReleases(
      done: seq<Release>, more: seq<Release>, open: bool, rest: seq<string>, n: nat) returns (m: nat, last: bool)
    requires GoodTitles(more, |done|) && State(done, open, false).Valid()
    ensures State(done + more, last, false).Valid()
    ensures Fold(ReleaseLines(more) + rest, n, State(done, open, false))
         == Fold(rest, m, State(done + more, last, false))
    decreases |more|
  {
    hide Fold, HeadingLine, GoodSections, TitleShape, SectionLines;
    if more == [] {
      assert done + more == done && ReleaseLines(more) + rest == rest;
      m, last := n, open;
    } else {
      RestIsGood(done, more);
      ReleaseLinesSplit(more, rest);
      hide ReleaseLines, GoodTitles;
      m := FoldRelease(done, more[0], open, ReleaseLines(more[1..]) + rest, n);
      m, last := FoldReleases(done + [more[0]], more[1..], more[0].sections != [], rest, m);
      Assoc(done, [more[0]], more[1..]);
      assert [more[0]] + more[1..] == more;
    }
  }

  /** Blank lines and link definitions at the end change nothing but the flag. */
  lemma {:induction false} FoldTrailer(ls: seq<string>, n: nat, st: State)
    requires st.Valid()
    requires forall i :: 0 <= i < |ls| ==> var k := Classify(ls[i]); k.Blank? || k.Link?
    ensures var r := Fold(ls, n, st); r.Ok? && r.value.releases == st.releases
    decreases |ls|
  {
    if ls != [] {
      FoldTrailer(ls[1..], n + 1, Step(st, Classify(ls[0])).value);
    }
  }

  // ---- the checks after the loop ---------------------------------------------------

  lemma ReleasedIsTail(rs: seq<Release>)
    requires forall i :: 1 <= i < |rs| ==> rs[i].version != UNRELEASED
    ensures Released(rs) == if rs != [] && rs[0].version == UNRELEASED then rs[1..] else rs
  {
    if rs != [] {
      AllReleased(rs[1..]);
      assert [rs[0]] + rs[1..] == rs;
    }
  }

  lemma {:induction false} AllReleased(rs: seq<Release>)
    requires forall i :: 0 <= i < |rs| ==> rs[i].version != UNRELEASED
    ensures Released(rs) == rs
  {
    if rs != [] {
      AllReleased(rs[1..]);
      assert [rs[0]] + rs[1..] == rs;
    }
  }

  lemma {:induction false} SectionGivesEntries(r: Release, names: seq<string>)
    requires r.sections != [] && r.sections[0].entries != [] && r.sections[0].name in names
    ensures EntriesOf(r, names) != []
  {
    if names[0] != r.sections[0].name {
      SectionGivesEntries(r, names[1..]);
    }
  }

  lemma {:induction false} NoSectionsNoEntries(r: Release, names: seq<string>)
    requires r.sections == []
    ensures EntriesOf(r, names) == []
  {
    if names != [] {
      NoSectionsNoEntries(r, names[1..]);
    }
  }

  /** The entries of a release with good sections are there exactly when it has a section. */
  lemma EntriesIffSections(r: Release)
    requires forall i :: 0 <= i < |r.sections| ==> r.sections[i].name in SECTIONS && r.sections[i].entries != []
    ensures Entries(r) != [] <==> r.sections != []
  {
    if r.sections == [] {
      NoSectionsNoEntries(r, SECTIONS);
    } else {
      SectionGivesEntries(r, SECTIONS);
    }
  }

  lemma NewerThanTransitive(a: Release, b: Release, c: Release)
    requires IsVersion(a.version) && IsVersion(b.version) && IsVersion(c.version)
    requires a.date.Some? && b.date.Some? && c.date.Some?
    requires NewerThan(a, b) && NewerThan(b, c)
    ensures NewerThan(a, c)
  {
    var x, y, z := VKey(a.version), VKey(b.version), VKey(c.version);
    LexTotal(x, y);
    LexTotal(y, z);
    if LexLeq(x, z) {
      LexTransitive(y, x, z);
    }
    StrLessNegTransitive(a.date.value, b.date.value, c.date.value);
  }

  lemma {:induction false} DescendingPairs(done: seq<Release>, i: nat, j: nat)
    requires Dated(done) && Descending(done) && i < j < |done|
    ensures NewerThan(done[i], done[j])
    decreases j - i
  {
    if i + 1 < j {
      DescendingPairs(done, i, j - 1);
      NewerThanTransitive(done[i], done[j - 1], done[j]);
    }
  }

  lemma ProblemIffNotWellFormed(rs: seq<Release>)
    requires rs != [] && Shape(rs) && Dated(Released(rs))
    ensures Problem(rs).None? <==> WellFormed(rs)
  {
    ReleasedIsTail(rs);
    var done := Released(rs);
    if Problem(rs).None? {
      SoundChecks(rs);
    }
    if WellFormed(rs) {
      CompleteChecks(rs);
    }
  }

  lemma DoneSections(ss: seq<Section>)
    requires SectionsShape(ss) && SectionsDone(ss)
    ensures GoodSections(ss)
  {
  }

  /** How `Released` sits in a list that is Unreleased at most in front. */
  predicate IsReleasedTail(rs: seq<Release>, done: seq<Release>, off: nat) {
    && |rs| == |done| + off && off <= 1
    && (off == 1 ==> rs[0].version == UNRELEASED)
    && forall i :: 0 <= i < |done| ==> done[i] == rs[i + off] && done[i].version != UNRELEASED
  }

  lemma ReleasedTail(rs: seq<Release>) returns (off: nat)
    requires forall i :: 1 <= i < |rs| ==> rs[i].version != UNRELEASED
    ensures IsReleasedTail(rs, Released(rs), off)
  {
    ReleasedIsTail(rs);
    off := |rs| - |Released(rs)|;
  }

  lemma DoneHaveSections(done: seq<Release>, i: nat)
    requires AllHaveEntries(done) && i < |done|
    ensures done[i].sections != []
  {
    if done[i].sections == [] {
      NoSectionsNoEntries(done[i], SECTIONS);
    }
  }

  lemma SoundOrder(rs: seq<Release>, done: seq<Release>, off: nat, i: nat, j: nat)
    requires Dated(done) && Descending(done) && IsReleasedTail(rs, done, off)
    requires i < j < |rs| && rs[i].version != UNRELEASED
    ensures IsVersion(rs[i].version) && IsVersion(rs[j].version) && rs[i].date.Some? && rs[j].date.Some?
    ensures NewerThan(rs[i], rs[j])
  {
    assert rs[i] == done[i - off] && rs[j] == done[j - off];
    DescendingPairs(done, i - off, j - off);
  }

  lemma SoundChecks(rs: seq<Release>)
    requires rs != [] && Shape(rs) && Dated(Released(rs)) && Problem(rs).None?
    ensures WellFormed(rs)
  {
    var done := Released(rs);
    var off := ReleasedTail(rs);
    forall i | 0 <= i < |rs| ensures GoodSections(rs[i].sections) {
      DoneSections(rs[i].sections);
    }
    forall i | 0 <= i < |rs| && rs[i].version != UNRELEASED ensures rs[i].sections != [] {
      DoneHaveSections(done, i - off);
    }
    forall i, j | 0 <= i < j < |rs| && rs[i].version != UNRELEASED ensures NewerThan(rs[i], rs[j]) {
      SoundOrder(rs, done, off, i, j);
    }
  }

  lemma GoodSectionsDone(ss: seq<Section>)
    requires GoodSections(ss)
    ensures SectionsDone(ss)
  {
  }

  lemma CompleteEntries(r: Release)
    requires GoodSections(r.sections) && r.sections != []
    ensures Entries(r) != []
  {
    assert GoodSection(r.sections[0]);
    SectionGivesEntries(r, SECTIONS);
  }

  lemma CompleteChecks(rs: seq<Release>)
    requires WellFormed(rs) && Dated(Released(rs))
    ensures Problem(rs).None?
  {
    var done := Released(rs);
    var off := ReleasedTail(rs);
    forall i | 0 <= i < |rs| ensures SectionsDone(rs[i].sections) {
      GoodSectionsDone(rs[i].sections);
    }
    forall i | 0 <= i < |done| ensures Entries(done[i]) != [] {
      assert done[i] == rs[i + off];
      CompleteEntries(done[i]);
    }
    forall i | 0 <= i < |done| - 1 ensures NewerThan(done[i], done[i + 1]) {
      assert done[i] == rs[i + off] && done[i + 1] == rs[i + 1 + off];
    }
  }

  // ---- the two main results ----------------------------------------------------------

  lemma {:induction false} EntryLinesOneLine(es: seq<Entry>)
    requires Translated(es)
    ensures AllOneLine(EntryLines(es))
  {
    if es != [] {
      EnglishLineIsEnglish(es[0].en);
      TranslationLineIsTranslation(es[0].tr.value);
      EntryLinesOneLine(es[1..]);
      hide EnglishLine, TranslationLine;
    }
  }

  lemma {:induction false} SectionLinesOneLine(ss: seq<Section>)
    requires forall i :: 0 <= i < |ss| ==> GoodSection(ss[i])
    ensures AllOneLine(SectionLines(ss))
  {
    if ss != [] {
      assert GoodSection(ss[0]);
      SectionLineIsSection(ss[0].name);
      EntryLinesOneLine(ss[0].entries);
      SectionLinesOneLine(ss[1..]);
      hide SectionLine, EntryLines;
    }
  }

  lemma {:induction false} ReleaseLinesOneLine(rs: seq<Release>)
    requires forall i :: 0 <= i < |rs| ==> TitleShape(rs[i]) && GoodSections(rs[i].sections)
    ensures AllOneLine(ReleaseLines(rs))
  {
    if rs != [] {
      HeadingLineIsHeading(rs[0].version, rs[0].date);
      assert GoodSections(rs[0].sections);
      SectionLinesOneLine(rs[0].sections);
      ReleaseLinesOneLine(rs[1..]);
      hide HeadingLine, SectionLines;
    }
  }

  lemma FirstHeadingAfter(pre: seq<string>, body: seq<string>)
    requires IsPreamble(pre) && body != [] && StartsWith(body[0], HEADING_PREFIX)
    ensures FirstHeading(pre + body, 0) == |pre| && (pre + body)[|pre|..] == body
  {
  }

  lemma FoldBody(rs: seq<Release>, links: seq<string>, n: nat)
    requires WellFormed(rs) && AreLinks(links)
    ensures var r := Fold(ReleaseLines(rs) + links, n, INIT); r.Ok? && r.value.releases == rs
  {
    assert GoodTitles(rs, 0);
    var m, last := FoldReleases([], rs, false, links, n);
    hide Fold, ReleaseLines, WellFormed;
    assert [] + rs == rs;
    FoldTrailer(links, m, State(rs, last, false));
  }

  lemma ParseWritten(pre: seq<string>, rs: seq<Release>, links: seq<string>)
    requires IsPreamble(pre) && WellFormed(rs) && AreLinks(links)
    ensures Parse(Unlines(pre + (ReleaseLines(rs) + links))) == Ok(rs)
  {
    var body := ReleaseLines(rs);
    ReleasedDated(rs);
    CompleteChecks(rs);
    ReleaseLinesOneLine(rs);
    HeadingLineIsHeading(rs[0].version, rs[0].date);
    assert body[0] == HeadingLine(rs[0].version, rs[0].date);
    hide Fold, ReleaseLines, WellFormed, HeadingLine, Classify, Problem;
    assert AllOneLine(pre + (body + links));
    SplitUnlinesOnly(pre + (body + links));
    FirstHeadingAfter(pre, body + links);
    FoldBody(rs, links, |pre| + 1);
  }

  /** Whatever well-formed list is written out below whatever header, parsing gives that list. */
  lemma ParseInvertsRender(pre: seq<string>, rs: seq<Release>)
    requires IsPreamble(pre) && WellFormed(rs)
    ensures Parse(Render(pre, rs)) == Ok(rs)
  {
    ReleasedDated(rs);
    LinkLinesAreLinks(rs);
    hide Parse, LinkLines, AreLinks, WellFormed;
    ParseWritten(pre, rs, LinkLines(rs));
  }

  lemma {:induction false} FoldGrows(ls: seq<string>, n: nat, st: State)
    requires st.Valid() && Fold(ls, n, st).Ok?
    ensures |Fold(ls, n, st).value.releases| >= |st.releases|
    decreases |ls|
  {
    if ls != [] {
      FoldGrows(ls[1..], n + 1, Step(st, Classify(ls[0])).value);
    }
  }

  lemma HeadingStartsLoop(line: string)
    requires StartsWith(line, HEADING_PREFIX)
    ensures var r := Step(INIT, Classify(line)); r.Ok? ==> |r.value.releases| == 1
  {
    assert line[..3][0] == '#' && line[0] == '#';
    NotBlank(line, 0);
    HashIsNoLink(line);
  }

  /** Whatever text the parser accepts, the list it returns is well formed. */
  lemma ParseIsSound(text: string)
    ensures Parse(text).Ok? ==> WellFormed(Parse(text).value)
  {
    if Parse(text).Ok? {
      var ls := SplitLines(text);
      var start := FirstHeading(ls, 0);
      var body := ls[start..];
      HeadingStartsLoop(body[0]);
      FoldKeepsShape(body, start + 1, INIT);
      var rs := Parse(text).value;
      FoldGrows(body[1..], start + 2, Step(INIT, Classify(body[0])).value);
      ReleasedDated(rs);
      hide Fold, Problem, Classify;
      SoundChecks(rs);
    }
  }

  /** The lists the parser can return are exactly the well-formed ones. */
  lemma AcceptedExactly(rs: seq<Release>)
    ensures WellFormed(rs) <==> exists text :: Parse(text) == Ok(rs)
  {
    if WellFormed(rs) {
      ParseInvertsRender([], rs);
    }
    if text :| Parse(text) == Ok(rs) {
      ParseIsSound(text);
    }
  }
}
