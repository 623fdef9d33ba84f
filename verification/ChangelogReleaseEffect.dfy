/** The main results about `release`: its one effect, when it succeeds, and re-running it. */
module ChangelogReleaseEffect {
  import opened Prelude
  import opened Text
  import opened Changelog
  import opened ChangelogFormat
  import opened ChangelogRoundTrip
  import opened ChangelogRelease
  import opened ChangelogReleaseProof

  /** A line of the free-text header ends in the text of the Unreleased heading. */
  predicate HeadInPreamble(text: string) {
    var ls := SplitLines(text);
    exists k :: 0 <= k < FirstHeading(ls, 0) && EndsWith(ls[k], HEAD)
  }

  /** The one effect: the open entries move, in their sections, to the new version. */
  function Effect(rs: seq<Release>, version: string, day: string): seq<Release>
    requires rs != []
  {
    [Release(UNRELEASED, None, []), Release(version, Some(day), rs[0].sections)] + rs[1..]
  }

  predicate HasOpenEntries(rs: seq<Release>) {
    rs != [] && rs[0].version == UNRELEASED && rs[0].sections != []
  }

  // ---- the first heading of an accepted text -----------------------------------------------

  lemma {:induction false} FoldKeepsFirst(ls: seq<string>, n: nat, st: State)
    requires st.Valid() && st.releases != [] && Fold(ls, n, st).Ok?
    ensures var end := Fold(ls, n, st).value.releases;
            end != [] && end[0].version == st.releases[0].version && end[0].date == st.releases[0].date
    decreases |ls|
  {
    hide Classify;
    if ls != [] {
      FoldKeepsFirst(ls[1..], n + 1, Step(st, Classify(ls[0])).value);
    }
  }

  lemma BareHeading(line: string, v: string)
    requires HeadingOf(line) == Some((v, None))
    ensures line == HeadingLine(v, None)
  {
  }

  lemma OpenHeadingLine(line: string, rest: seq<string>, n: nat)
    requires StartsWith(line, HEADING_PREFIX) && Fold([line] + rest, n, INIT).Ok?
    requires HasOpenEntries(Fold([line] + rest, n, INIT).value.releases)
    requires TitleShape(Fold([line] + rest, n, INIT).value.releases[0])
    ensures line == HEAD && rest != []
  {
    var rs := Fold([line] + rest, n, INIT).value.releases;
    assert ([line] + rest)[1..] == rest;
    HeadingStartsLoop(line);
    var k := Classify(line);
    var st := Step(INIT, k).value;
    hide Classify, Fold, HeadingLine;
    assert Fold([line] + rest, n, INIT) == Fold(rest, n + 1, st) by { FoldCons(line, rest, n, INIT, st); }
    FoldKeepsFirst(rest, n + 1, st);
    assert k.Heading? && st.releases == [Release(k.version, k.date, [])];
    HeadingKind(line);
    BareHeading(line, UNRELEASED);
    FoldNothing(n + 1, st);
  }

  lemma FoldNothing(n: nat, st: State)
    requires st.Valid()
    ensures Fold([], n, st) == Ok(st)
  {
  }

  lemma HeadingKind(line: string)
    requires Classify(line).Heading?
    ensures HeadingOf(line) == Some((Classify(line).version, Classify(line).date))
  {
  }

  /** The loop over these lines, from the first heading on, ends with these releases. */
  predicate LoopGives(ls: seq<string>, rs: seq<Release>) {
    var n := FirstHeading(ls, 0);
    n < |ls| && Fold(ls[n..], n + 1, INIT).Ok? && Fold(ls[n..], n + 1, INIT).value.releases == rs
  }

  lemma ParsedLoop(text: string)
    requires Parse(text).Ok?
    ensures LoopGives(SplitLines(text), Parse(text).value)
  {
    hide Fold, Problem, SplitLines, FirstHeading;
  }

  lemma FirstAndRest<T>(s: seq<T>, n: nat)
    requires n < |s|
    ensures s[n..] == [s[n]] + s[n + 1..]
  {
  }

  lemma OpenHeading(text: string)
    requires Parse(text).Ok? && HasOpenEntries(Parse(text).value)
    ensures var ls := SplitLines(text);
            var n := FirstHeading(ls, 0);
            n < |FullLines(text)| && ls[n] == HEAD
  {
    var ls := SplitLines(text);
    var n := FirstHeading(ls, 0);
    ParsedLoop(text);
    ParseIsSound(text);
    hide Fold, HeadingLine, Parse, FirstHeading, Classify, StartsWith;
    FirstAndRest(ls, n);
    OpenHeadingLine(ls[n], ls[n + 1..], n + 1);
  }

  // ---- the edit hits the heading --------------------------------------------------------------

  lemma NewerThanByTitle(a: Release, same: Release, b: Release)
    requires a.version == same.version && a.date == same.date
    requires IsVersion(a.version) && IsVersion(b.version) && a.date.Some? && b.date.Some? && NewerThan(a, b)
    ensures NewerThan(same, b)
  {
  }

  lemma EffectOrder(rs: seq<Release>, version: string, day: string, i: nat, j: nat)
    requires WellFormed(rs) && IsVersion(version) && i < j < |rs| + 1
    requires |rs| > 1 ==> NewerThan(Release(version, Some(day), []), rs[1])
    requires Effect(rs, version, day)[i].version != UNRELEASED
    ensures var e := Effect(rs, version, day);
            && IsVersion(e[i].version) && IsVersion(e[j].version) && e[i].date.Some? && e[j].date.Some?
            && NewerThan(e[i], e[j])
  {
    hide NewerThan, IsVersion, IsDate, SectionsShape, GoodSections;
    var e, top := Effect(rs, version, day), Release(version, Some(day), []);
    assert e[j] == rs[j - 1];
    assert TitleShape(rs[j - 1]) && rs[j - 1].version != UNRELEASED;
    if i == 1 {
      if j > 2 {
        assert TitleShape(rs[1]) && rs[1].version != UNRELEASED;
        NewerThanTransitive(top, rs[1], rs[j - 1]);
      }
      NewerThanByTitle(top, e[1], e[j]);
    } else {
      assert e[i] == rs[i - 1];
    }
  }

  lemma MovedWellFormed(rs: seq<Release>, version: string, day: string)
    requires WellFormed(rs) && HasOpenEntries(rs) && IsVersion(version) && IsDate(day)
    ensures Shape(Effect(rs, version, day))
    ensures WellFormed(Effect(rs, version, day))
       <==> |rs| == 1 || NewerThan(Release(version, Some(day), []), rs[1])
  {
    VersionIsNoWord(version);
    EffectShape(rs, version, day);
    var e := Effect(rs, version, day);
    if |rs| == 1 || NewerThan(Release(version, Some(day), []), rs[1]) {
      MovedStaysWellFormed(rs, version, day);
    }
    if WellFormed(e) && |rs| > 1 {
      assert e[1] == Release(version, Some(day), rs[0].sections) && e[2] == rs[1];
      assert NewerThan(e[1], e[2]);
    }
  }

  lemma MovedTitles(rs: seq<Release>, version: string, day: string)
    requires WellFormed(rs) && HasOpenEntries(rs) && IsVersion(version) && IsDate(day) && version != UNRELEASED
    ensures var e := Effect(rs, version, day);
            forall i :: 0 <= i < |e| ==>
              && TitleShape(e[i]) && GoodSections(e[i].sections)
              && (i >= 1 ==> e[i].version != UNRELEASED)
              && (e[i].version != UNRELEASED ==> e[i].sections != [])
  {
    assert GoodSections([]);
    hide IsVersion, IsDate, NewerThan, GoodSections;
    var e := Effect(rs, version, day);
    forall i | 2 <= i < |e| ensures e[i] == rs[i - 1] {
    }
  }

  lemma MovedStaysWellFormed(rs: seq<Release>, version: string, day: string)
    requires WellFormed(rs) && HasOpenEntries(rs) && IsVersion(version) && IsDate(day) && version != UNRELEASED
    requires |rs| == 1 || NewerThan(Release(version, Some(day), []), rs[1])
    ensures WellFormed(Effect(rs, version, day))
  {
    hide IsVersion, IsDate, NewerThan, GoodSections;
    MovedTitles(rs, version, day);
    var e := Effect(rs, version, day);
    assert |e| == |rs| + 1;
    forall i, j | 0 <= i < j < |e| && e[i].version != UNRELEASED ensures NewerThan(e[i], e[j]) {
      EffectOrder(rs, version, day, i, j);
    }
    hide Effect;
  }

  lemma VersionIsNoWord(version: string)
    requires IsVersion(version)
    ensures version != UNRELEASED
  {
    SplitChars(version);
    assert UNRELEASED[0] == 'U';
  }

  lemma GoodSectionsShape(ss: seq<Section>)
    requires GoodSections(ss)
    ensures SectionsShape(ss)
  {
  }

  lemma EffectShape(rs: seq<Release>, version: string, day: string)
    requires WellFormed(rs) && IsVersion(version) && IsDate(day) && version != UNRELEASED
    ensures Shape(Effect(rs, version, day))
  {
    var new' := Effect(rs, version, day);
    forall i | 0 <= i < |new'| ensures TitleShape(new'[i]) && SectionsShape(new'[i].sections) {
      GoodSectionsShape(rs[if i == 0 then 0 else i - 1].sections);
    }
  }

  const OPENED := State([Release(UNRELEASED, None, [])], false, false)

  lemma FoldHead(rest: seq<string>, n: nat)
    ensures Fold([HEAD] + rest, n, INIT) == Fold(rest, n + 1, OPENED)
  {
    HeadIsHeading();
    hide HeadingLine, Classify, Fold;
    assert INIT.releases + [Release(UNRELEASED, None, [])] == OPENED.releases;
    assert Step(INIT, Heading(UNRELEASED, None)) == Ok(OPENED);
    FoldCons(HEAD, rest, n, INIT, OPENED);
  }

  lemma FoldStops(l: string, rest: seq<string>, n: nat, st: State)
    requires st.Valid() && Step(st, Classify(l)).Err?
    ensures Fold([l] + rest, n, st).Err?
  {
  }

  /** The loop over the edited lines, from the heading on: it stops at a heading that is none. */
  lemma FoldEditedStops(nh: string, rest: seq<string>, n: nat)
    requires Step(OPENED, Classify(nh)).Err?
    ensures Fold([HEAD, "", nh] + rest, n, INIT).Err?
  {
    hide Classify, Fold, HeadingLine, Step;
    HeadBlank(nh, rest);
    FoldHead([""] + ([nh] + rest), n);
    FoldBlank([nh] + rest, n + 1, OPENED);
    FoldStops(nh, rest, n + 2, OPENED);
  }

  lemma HeadBlank(nh: string, rest: seq<string>)
    ensures [HEAD, "", nh] + rest == [HEAD] + ([""] + ([nh] + rest))
  {
    ThreeFirst(HEAD, "", nh, rest);
  }

  lemma ThreeFirst<T>(a: T, b: T, c: T, rest: seq<T>)
    ensures [a, b, c] + rest == [a] + ([b] + ([c] + rest))
  {
  }

  lemma StepTop(version: string, day: string)
    requires IsDate(day) && version != UNRELEASED
    ensures Step(OPENED, Heading(version, Some(day))) == Ok(Moved(OPENED, Release(version, Some(day), [])))
    ensures Moved(OPENED, Release(version, Some(day), [])).Valid()
  {
    var top, first := Release(version, Some(day), []), Release(UNRELEASED, None, []);
    assert OPENED.releases[1..] == [];
    assert OPENED.releases + [top] == [first, top] && [first, top] + [] == [first, top];
  }

  /** It goes on with the new release open where the old loop had Unreleased open. */
  lemma FoldEdited(nh: string, rest: seq<string>, version: string, day: string, n: nat)
    requires IsDate(day) && version != UNRELEASED && Classify(nh) == Heading(version, Some(day))
    ensures Moved(OPENED, Release(version, Some(day), [])).Valid()
    ensures Fold([HEAD, "", nh] + rest, n, INIT) == Fold(rest, n + 3, Moved(OPENED, Release(version, Some(day), [])))
  {
    hide Classify, Fold, HeadingLine, Step, IsDate, Moved;
    StepTop(version, day);
    HeadBlank(nh, rest);
    FoldHead([""] + ([nh] + rest), n);
    FoldBlank([nh] + rest, n + 1, OPENED);
    FoldCons(nh, rest, n + 2, OPENED, Moved(OPENED, Release(version, Some(day), [])));
  }

  /** Parsing lines after a preamble is the loop over them and the checks after it. */
  lemma ParsedFrom(pre: seq<string>, body: seq<string>)
    requires IsPreamble(pre) && AllOneLine(body) && body != [] && StartsWith(body[0], HEADING_PREFIX)
    ensures AllOneLine(pre + body)
    ensures var r, loop := ParseLines(pre + body), Fold(body, |pre| + 1, INIT);
            && (r.Ok? ==> loop.Ok? && loop.value.releases == r.value)
            && (loop.Ok? && Dated(Released(loop.value.releases)) ==>
                 if Problem(loop.value.releases).None? then r == Ok(loop.value.releases) else r.Err?)
  {
    FirstHeadingAfter(pre, body);
    hide Fold, Problem, FirstHeading, StartsWith;
  }

  /** What the loop over the edited lines leaves, given what the loop over the lines as they were left. */
  lemma MovedFold(nh: string, rest: seq<string>, version: string, day: string, n: nat)
    requires IsDate(day) && version != UNRELEASED && Classify(nh) == Heading(version, Some(day))
    requires Fold(rest, n + 1, OPENED).Ok?
    ensures var rs, edited := Fold(rest, n + 1, OPENED).value.releases, Fold([HEAD, "", nh] + rest, n, INIT);
            rs != [] && edited.Ok? && edited.value.releases == Effect(rs, version, day)
  {
    hide Classify, Fold, HeadingLine, IsDate;
    var top := Release(version, Some(day), []);
    FoldEdited(nh, rest, version, day, n);
    FoldMoved(rest, n + 1, n + 3, OPENED, top);
    FoldKeepsFirst(rest, n + 1, OPENED);
  }

  /** The bodies of the text as it was and as edited are lines that start with a heading. */
  lemma Bodies(rest: seq<string>, nh: string)
    requires AllOneLine(rest) && OneLine(nh)
    ensures AllOneLine([HEAD] + rest) && ([HEAD] + rest)[0] == HEAD
    ensures AllOneLine([HEAD, "", nh] + rest) && ([HEAD, "", nh] + rest)[0] == HEAD
  {
    HeadIsHeading();
    EmptyIsOneLine();
    hide HeadingLine, OneLine;
  }

  lemma HeadingCase(pre: seq<string>, rest: seq<string>, rs: seq<Release>, version: string, day: string)
    requires IsPreamble(pre) && AllOneLine(rest) && IsDate(day) && version != UNRELEASED
    requires OneLine(HeadingLine(version, Some(day)))
    requires AllOneLine(pre + ([HEAD] + rest)) && ParseLines(pre + ([HEAD] + rest)) == Ok(rs)
    requires HasOpenEntries(rs) && WellFormed(rs)
    ensures AllOneLine(pre + ([HEAD, "", HeadingLine(version, Some(day))] + rest))
    ensures var edited := ParseLines(pre + ([HEAD, "", HeadingLine(version, Some(day))] + rest));
            && (edited.Ok? <==>
                 IsVersion(version) && (|rs| == 1 || NewerThan(Release(version, Some(day), []), rs[1])))
            && (edited.Ok? ==> edited.value == Effect(rs, version, day))
  {
    var nh, n := HeadingLine(version, Some(day)), |pre| + 1;
    HeadIsHeading();
    NewHeadingKind(version, day);
    hide HeadingLine, Classify, Fold, Problem, WellFormed, IsVersion, IsDate, ParseLines, Effect, IsPreamble, NewerThan,
         StartsWith, AllOneLine, OneLine, HasOpenEntries;
    Bodies(rest, nh);
    ParsedFrom(pre, [HEAD] + rest);
    ParsedFrom(pre, [HEAD, "", nh] + rest);
    FoldHead(rest, n);
    if IsVersion(version) {
      MovedFold(nh, rest, version, day, n);
      MovedProblem(rs, version, day);
    } else {
      OtherStops(OPENED);
      FoldEditedStops(nh, rest, n);
    }
  }

  lemma OtherStops(st: State)
    requires st.Valid() && st.releases != []
    ensures Step(st, Other).Err?
  {
  }

  lemma MovedProblem(rs: seq<Release>, version: string, day: string)
    requires WellFormed(rs) && HasOpenEntries(rs) && IsVersion(version) && IsDate(day)
    ensures var e := Effect(rs, version, day);
            && Dated(Released(e))
            && (Problem(e).None? <==> |rs| == 1 || NewerThan(Release(version, Some(day), []), rs[1]))
  {
    MovedWellFormed(rs, version, day);
    hide WellFormed, Problem, IsVersion, IsDate, Effect, HasOpenEntries;
    ReleasedDated(Effect(rs, version, day));
    ProblemIffNotWellFormed(Effect(rs, version, day));
  }

  // ---- the edit hits the free text ---------------------------------------------------------------

  lemma PreambleLine(pre: seq<string>, l: string, rest: seq<string>, nh: string)
    requires IsPreamble(pre + [l]) && AllOneLine(rest) && OneLine(nh)
    ensures AllOneLine(pre + ([l, "", nh] + rest)) && IsPreamble(pre + [l] + [""])
    ensures pre + ([l, "", nh] + rest) == pre + [l] + [""] + ([nh] + rest)
  {
  }

  lemma EmptyIsOneLine()
    ensures OneLine("")
  {
  }

  /** The new heading in front of the old one leaves a second Unreleased heading, or is none itself. */
  lemma SecondHeadingFails(nh: string, rest: seq<string>, n: nat)
    requires HEAD in rest && (Classify(nh).Other? || Classify(nh).Heading?)
    ensures Fold([nh] + rest, n, INIT).Err?
  {
    hide Classify, Fold;
    var st := Step(INIT, Classify(nh));
    if st.Ok? {
      FoldCons(nh, rest, n, INIT, st.value);
      SecondUnreleasedFails(rest, n + 1, st.value);
    } else {
      FoldStops(nh, rest, n, INIT);
    }
  }

  lemma PreambleCase(pre: seq<string>, l: string, rest: seq<string>, version: string, day: string)
    requires IsPreamble(pre + [l]) && HEAD in rest && AllOneLine(rest)
    requires IsDate(day) && version != UNRELEASED && OneLine(HeadingLine(version, Some(day)))
    ensures AllOneLine(pre + ([l, "", HeadingLine(version, Some(day))] + rest))
    ensures ParseLines(pre + ([l, "", HeadingLine(version, Some(day))] + rest)).Err?
  {
    var nh := HeadingLine(version, Some(day));
    NewHeadingKind(version, day);
    hide HeadingLine, Classify, Problem, IsDate, IsPreamble, OneLine, AllOneLine, Fold, IsVersion, FirstHeading, StartsWith;
    PreambleLine(pre, l, rest, nh);
    FirstHeadingAfter(pre + [l] + [""], [nh] + rest);
    SecondHeadingFails(nh, rest, |pre| + 3);
  }

  // ---- both cases together ---------------------------------------------------------------------------

  /** The first `n + 1` lines of a text that goes on after them are ended by line feeds. */
  lemma EarlyLines(text: string, k: nat)
    requires k < |FullLines(text)|
    ensures k < |SplitLines(text)| && SplitLines(text)[k] == FullLines(text)[k]
  {
  }

  lemma FindHeading(text: string, n: nat) returns (pre: seq<string>, p: string, rest: string)
    requires n < |FullLines(text)| && FullLines(text)[n] == HEAD
    ensures Found(text, pre, p, rest) && |pre| <= n
    ensures SplitLines(text) == pre + ([p + HEAD] + SplitLines(rest))
  {
    var full := FullLines(text);
    Recompose(text);
    hide HeadingLine, SplitLines;
    assert full[n] == "" + HEAD;
    LineOccurs(full, n, Remainder(text), "");
    pre, p, rest := Locate(text);
    FoundBefore(text, pre, p, rest, n, "");
    FoundLines(text, pre, p, rest);
  }

  lemma FoundFirst(text: string, pre: seq<string>, p: string, rest: string, k: nat)
    requires Found(text, pre, p, rest) && k < |FullLines(text)| && EndsWith(FullLines(text)[k], HEAD)
    ensures |pre| <= k
  {
    hide HeadingLine, Found, FullLines;
    var l := FullLines(text)[k];
    var q := l[..|l| - |HEAD|];
    assert l == q + HEAD;
    FoundBefore(text, pre, p, rest, k, q);
  }

  lemma AppendEndsWith(p: string, s: string)
    ensures EndsWith(p + s, s)
  {
  }

  /** The heading is searched for and found: at itself, or at an earlier line of the free text. */
  lemma LocateHeading(text: string) returns (pre: seq<string>, p: string, rest: string)
    requires Parse(text).Ok? && HasOpenEntries(Parse(text).value)
    ensures Found(text, pre, p, rest)
    ensures SplitLines(text) == pre + ([p + HEAD] + SplitLines(rest))
    ensures |pre| <= FirstHeading(SplitLines(text), 0)
    ensures HeadInPreamble(text) <==> |pre| < FirstHeading(SplitLines(text), 0)
  {
    OpenHeading(text);
    var ls := SplitLines(text);
    var n := FirstHeading(ls, 0);
    hide FirstHeading, HeadingLine, Parse, SplitLines, FullLines, Found, EndsWith;
    EarlyLines(text, n);
    pre, p, rest := FindHeading(text, n);
    AppendEndsWith(p, HEAD);
    assert ls[|pre|] == p + HEAD;
    if k :| 0 <= k < n && EndsWith(ls[k], HEAD) {
      EarlyLines(text, k);
      FoundFirst(text, pre, p, rest, k);
    }
  }

  function Edited(text: string, version: string, day: string): string {
    ReplaceFirst(text, HEAD + "\n", NewTop(version, day))
  }

  lemma NewHeadingIsOneLine(version: string, day: string)
    requires OneLine(version) && IsDate(day)
    ensures OneLine(HeadingLine(version, Some(day)))
  {
  }

  lemma PreambleLines(ls: seq<string>, pre: seq<string>, l: string, more: seq<string>)
    requires AllOneLine(ls) && ls == pre + ([l] + more)
    requires |pre| < FirstHeading(ls, 0) < |ls| && ls[FirstHeading(ls, 0)] == HEAD
    ensures IsPreamble(pre + [l]) && HEAD in more
  {
    hide HeadingLine, FirstHeading, StartsWith, IsPreamble, AllOneLine;
    LinesBefore(ls, |pre| + 1);
    TakeOneMore(pre, l, more);
    LaterLine(pre, l, more, FirstHeading(ls, 0));
  }

  lemma LaterLine<T>(pre: seq<T>, l: T, more: seq<T>, n: nat)
    requires |pre| < n < |pre| + 1 + |more|
    ensures (pre + ([l] + more))[n] in more
  {
  }

  lemma LinesBefore(ls: seq<string>, m: nat)
    requires AllOneLine(ls) && m <= FirstHeading(ls, 0)
    ensures IsPreamble(ls[..m])
  {
  }

  lemma TakeOneMore<T>(pre: seq<T>, l: T, more: seq<T>)
    ensures (pre + ([l] + more))[..|pre| + 1] == pre + [l]
    ensures (pre + ([l] + more))[|pre| + 1..] == more
  {
  }

  lemma EditInPreamble(text: string, version: string, day: string)
    requires Parse(text).Ok? && HasOpenEntries(Parse(text).value) && HeadInPreamble(text)
    requires OneLine(version) && version != UNRELEASED && IsDate(day)
    ensures Parse(Edited(text, version, day)).Err?
  {
    OpenHeading(text);
    NewHeadingIsOneLine(version, day);
    var pre, p, rest := LocateHeading(text);
    var ls, more := SplitLines(text), SplitLines(rest);
    EditedLines(text, pre, p, rest, version, day);
    hide HeadingLine, SplitLines, ReplaceFirst, HeadInPreamble, ParseLines, Found, IsDate;
    PreambleLines(ls, pre, p + HEAD, more);
    PreambleCase(pre, p + HEAD, more, version, day);
  }

  lemma EditAtHeading(text: string, version: string, day: string)
    requires Parse(text).Ok? && HasOpenEntries(Parse(text).value) && !HeadInPreamble(text)
    requires WellFormed(Parse(text).value)
    requires OneLine(version) && version != UNRELEASED && IsDate(day)
    ensures var rs, edited := Parse(text).value, Parse(Edited(text, version, day));
            && (edited.Ok? <==>
                 IsVersion(version) && (|rs| == 1 || NewerThan(Release(version, Some(day), []), rs[1])))
            && (edited.Ok? ==> edited.value == Effect(rs, version, day))
  {
    OpenHeading(text);
    HeadIsHeading();
    NewHeadingIsOneLine(version, day);
    var pre, p, rest := LocateHeading(text);
    var ls := SplitLines(text);
    EditedLines(text, pre, p, rest, version, day);
    hide FirstHeading, HeadingLine, SplitLines, ReplaceFirst, HeadInPreamble, ParseLines, Found, IsDate, IsVersion, WellFormed;
    AtHeading(ls, pre, p, SplitLines(rest));
    HeadingCase(pre, SplitLines(rest), Parse(text).value, version, day);
  }

  // ---- the main results --------------------------------------------------------------------------------

  /** What a caller can check before a release: the entries, the version, the day, the header. */
  predicate Releasable(text: string, version: string, day: string)
    requires Parse(text).Ok?
  {
    var rs := Parse(text).value;
    && HasOpenEntries(rs) && IsVersion(version) && IsDate(day)
    && (|rs| == 1 || (TitleShape(rs[1]) && rs[1].version != UNRELEASED
                      && NewerThan(Release(version, Some(day), []), rs[1])))
    && !HeadInPreamble(text)
  }

  lemma KeyAboveIsNewer(version: string, latest: string)
    requires IsVersion(version) && IsVersion(latest)
    ensures KeyAbove(version, latest) <==> !LexLeq(VKey(version), VKey(latest))
  {
  }

  lemma OpenEntries(rs: seq<Release>)
    requires WellFormed(rs) && rs[0].version == UNRELEASED
    ensures Entries(rs[0]) != [] <==> rs[0].sections != []
    ensures Released(rs) == rs[1..]
  {
    ReleasedIsTail(rs);
    forall i | 0 <= i < |rs[0].sections| ensures rs[0].sections[i].name in SECTIONS && rs[0].sections[i].entries != [] {
      assert GoodSection(rs[0].sections[i]);
    }
    EntriesIffSections(rs[0]);
  }

  lemma ReleaseOpen(text: string, version: string, day: string)
    requires Parse(text).Ok? && !HasVersion(Parse(text).value, version) && OneLine(version)
    requires WellFormed(Parse(text).value) && HasOpenEntries(Parse(text).value) && IsDate(day) && version != UNRELEASED
    requires Released(Parse(text).value) == Parse(text).value[1..] && Entries(Parse(text).value[0]) != []
    ensures var r := ReleaseText(text, version, day);
            && (r.Ok? <==> Releasable(text, version, day))
            && (r.Ok? ==> Parse(r.value) == Ok(Effect(Parse(text).value, version, day)))
  {
    var rs, edited := Parse(text).value, Edited(text, version, day);
    if HeadInPreamble(text) {
      EditInPreamble(text, version, day);
    } else {
      EditAtHeading(text, version, day);
    }
    if |rs| > 1 && IsVersion(version) {
      KeyAboveIsNewer(version, rs[1].version);
    }
    if Parse(edited).Ok? {
      ParseIsSound(edited);
      ReleasedDated(Parse(edited).value);
      WithLinksKeepsMeaning(edited, Parse(edited).value);
    }
    hide HeadInPreamble, WithLinks, ReplaceFirst, LexLeq, Entries, Parse, WellFormed, Released;
  }

  lemma NewVersionEffect(text: string, version: string, day: string)
    requires Parse(text).Ok? && !HasVersion(Parse(text).value, version) && OneLine(version)
    ensures var r := ReleaseText(text, version, day);
            && (r.Ok? <==> Releasable(text, version, day))
            && (r.Ok? ==> Parse(r.value) == Ok(Effect(Parse(text).value, version, day)))
  {
    var rs := Parse(text).value;
    ParseIsSound(text);
    if rs[0].version == UNRELEASED {
      assert version != UNRELEASED;
      OpenEntries(rs);
      if HasOpenEntries(rs) && IsDate(day) {
        ReleaseOpen(text, version, day);
      }
    }
  }

  // ---- versions with a line feed in them -------------------------------------------------------------------

  lemma KeyedIsOneLine(version: string)
    ensures VKeyOf(version).Some? || IsVersion(version) ==> OneLine(version)
  {
    if VKeyOf(version).Some? || IsVersion(version) {
      SplitChars(version);
    }
  }

  /** Such a version has no key and is no version. */
  lemma FeedHasNoKey(version: string)
    requires !OneLine(version)
    ensures VKeyOf(version).None? && !IsVersion(version) && version != UNRELEASED
  {
    KeyedIsOneLine(version);
    assert OneLine(UNRELEASED);
    hide OneLine, IsVersion, VKeyOf;
  }

  lemma FeedIsNew(text: string, version: string)
    requires !OneLine(version) && Parse(text).Ok?
    ensures !HasVersion(Parse(text).value, version)
  {
    FeedHasNoKey(version);
    ParseIsSound(text);
    hide IsVersion, OneLine, Parse, SplitLines;
  }

  /** Nothing a release with such a version writes can have the one effect. */
  lemma FeedHasNoEffect(text: string, rs: seq<Release>, version: string, day: string)
    requires !OneLine(version) && rs != []
    ensures Parse(text) != Ok(Effect(rs, version, day))
  {
    FeedHasNoKey(version);
    ParseIsSound(text);
    hide IsVersion, OneLine, Parse, SplitLines;
    assert Effect(rs, version, day)[1].version == version;
  }

  lemma FeedResult(text: string, version: string, day: string)
    requires !OneLine(version) && Parse(text).Ok?
    ensures var r := ReleaseText(text, version, day);
            && (Released(Parse(text).value) != [] ==> r.Err?)
            && (r.Ok? ==> Parse(text).value != [] && Parse(r.value).Ok?
                          && Parse(r.value) == Parse(Edited(text, version, day))
                          && HasOpenEntries(Parse(text).value) && IsDate(day))
  {
    FeedHasNoKey(version);
    FeedIsNew(text, version);
    ParseIsSound(text);
    var rs, edited := Parse(text).value, Edited(text, version, day);
    if rs[0].version == UNRELEASED {
      OpenEntries(rs);
    }
    if Parse(edited).Ok? {
      ParseIsSound(edited);
      ReleasedDated(Parse(edited).value);
      WithLinksKeepsMeaning(edited, Parse(edited).value);
    }
    hide WithLinks, ReplaceFirst, LexLeq, Entries, Parse, WellFormed, Released, VKeyOf, OneLine, IsVersion, HasVersion;
  }

  // ---- re-running one -----------------------------------------------------------------------------------------

  /** Where the version is cut, the new heading is its first part, and the old lines follow the second. */
  lemma FeedLines(
      text: string, pre: seq<string>, p: string, rest: string, a: string, b: string, day: string)
    requires Found(text, pre, p, rest) && OneLine(a)
    ensures SplitLines(Edited(text, a + "\n" + b, day))
         == pre + ([p + HEAD, "", "## [" + a] + SplitLines(b + "]" + (" - " + day) + "\n" + rest))
  {
    EditedText(text, pre, p, rest, a + "\n" + b, day);
    HeadIsHeading();
    assert OneLine("## [" + a) && OneLine(p + HEAD) && OneLine("");
    FeedHeading(a, b, day);
    hide FindFrom, HeadingLine, SplitLines, ReplaceFirst, Unlines, OneLine;
    FeedRegroup(p + HEAD, "", "## [" + a, b + "]" + (" - " + day), rest);
    ThreeLines(pre, p + HEAD, "", "## [" + a, b + "]" + (" - " + day) + "\n" + rest);
  }

  lemma FeedHeading(a: string, b: string, day: string)
    ensures HeadingLine(a + "\n" + b, Some(day)) == "## [" + a + "\n" + (b + "]" + (" - " + day))
  {
  }

  lemma FeedRegroup(l: string, e: string, h: string, t: string, rest: string)
    ensures (l + "\n" + (e + "\n" + (h + "\n" + t + "\n"))) + rest == (l + "\n" + (e + "\n" + (h + "\n"))) + (t + "\n" + rest)
  {
  }

  lemma OpenBracketKind(a: string)
    ensures Classify("## [" + a).Heading? || Classify("## [" + a).Other?
    ensures StartsWith("## [" + a, HEADING_PREFIX)
  {
    var line := "## [" + a;
    assert line[..3] == "## ";
    NotBlank(line, 0);
    HashIsNoLink(line);
    assert !StartsWith(line, SECTION_PREFIX) by {
      assert line[..4][2] == line[2] && SECTION_PREFIX[2] == '#';
    }
    assert !StartsWith(line, TR_PREFIX) by {
      assert |line| >= 8 ==> line[..8][0] == line[0];
    }
    assert !StartsWith(line, EN_PREFIX) by {
      assert line[..2][0] == line[0];
    }
  }

  /** At the heading: the first part is a second heading, or stops the loop. */
  lemma FeedAtHeading(pre: seq<string>, nh: string, more: seq<string>)
    requires IsPreamble(pre) && AllOneLine(more) && OneLine(nh) && (Classify(nh).Heading? || Classify(nh).Other?)
    ensures AllOneLine(pre + ([HEAD, "", nh] + more))
    ensures var r := ParseLines(pre + ([HEAD, "", nh] + more)); r.Ok? ==> |r.value| >= 2
  {
    var n := |pre| + 1;
    HeadIsHeading();
    OtherStops(OPENED);
    hide HeadingLine, Classify, Fold, Problem, ParseLines, IsPreamble, StartsWith, AllOneLine, OneLine;
    Bodies(more, nh);
    ParsedFrom(pre, [HEAD, "", nh] + more);
    HeadBlank(nh, more);
    FoldHead([""] + ([nh] + more), n);
    FoldBlank([nh] + more, n + 1, OPENED);
    var st := Step(OPENED, Classify(nh));
    if st.Ok? {
      FoldCons(nh, more, n + 2, OPENED, st.value);
      if Fold(more, n + 3, st.value).Ok? {
        FoldGrows(more, n + 3, st.value);
      }
    } else {
      FoldStops(nh, more, n + 2, OPENED);
    }
  }

  /** In the free text: the old heading comes second, and the loop stops there. */
  lemma FeedInPreamble(pre: seq<string>, l: string, nh: string, more: seq<string>)
    requires IsPreamble(pre + [l]) && HEAD in more && AllOneLine(more) && OneLine(nh)
    requires (Classify(nh).Heading? || Classify(nh).Other?) && StartsWith(nh, HEADING_PREFIX)
    ensures AllOneLine(pre + ([l, "", nh] + more)) && ParseLines(pre + ([l, "", nh] + more)).Err?
  {
    PreambleLine(pre, l, more, nh);
    hide HeadingLine, Classify, Problem, IsPreamble, OneLine, Fold, StartsWith, ParseLines;
    assert AllOneLine([nh] + more) && ([nh] + more)[0] == nh;
    ParsedFrom(pre + [l] + [""], [nh] + more);
    SecondHeadingFails(nh, more, |pre| + 3);
  }

  lemma LinesAfter(u: string, rest: string, line: string)
    requires line in SplitLines(rest)
    ensures line in SplitLines(u + "\n" + rest)
  {
    var front := FullLines(u) + [Remainder(u)];
    Recompose(u);
    UnlinesAppend(FullLines(u), [Remainder(u)]);
    UnlinesCons(Remainder(u), []);
    hide SplitLines, FullLines, Remainder, Unlines;
    assert Unlines(front) + rest == u + "\n" + rest by {
      assert [Remainder(u)] + [] == [Remainder(u)];
      UnlinesOfNone();
      assert Unlines([Remainder(u)]) == Remainder(u) + "\n";
      Assoc(Unlines(FullLines(u)), Remainder(u), "\n");
    }
    SplitUnlines(front, rest);
  }

  lemma UnlinesOfNone()
    ensures Unlines([]) == ""
  {
  }

  lemma CutVersion(version: string) returns (a: string, b: string)
    requires !OneLine(version)
    ensures OneLine(a) && version == a + "\n" + b
  {
    var i := IndexOf(version, '\n');
    a, b := version[..i], version[i + 1..];
  }

  /** A release with such a version that succeeds leaves a released version behind. */
  lemma FeedLeavesTwo(text: string, version: string, day: string)
    requires !OneLine(version) && Parse(text).Ok? && HasOpenEntries(Parse(text).value)
    ensures var edited := Parse(Edited(text, version, day)); edited.Ok? ==> |edited.value| >= 2
  {
    var a, b := CutVersion(version);
    OpenHeading(text);
    HeadIsHeading();
    OpenBracketKind(a);
    var pre, p, rest := LocateHeading(text);
    var ls, nh, more := SplitLines(text), "## [" + a, SplitLines(b + "]" + (" - " + day) + "\n" + rest);
    FeedLines(text, pre, p, rest, a, b, day);
    assert OneLine(nh);
    hide FirstHeading, HeadingLine, SplitLines, ReplaceFirst, ParseLines, Found, Classify, OneLine, StartsWith;
    if HeadInPreamble(text) {
      PreambleLines(ls, pre, p + HEAD, SplitLines(rest));
      LinesAfter(b + "]" + (" - " + day), rest, HEAD);
      FeedInPreamble(pre, p + HEAD, nh, more);
    } else {
      AtHeading(ls, pre, p, SplitLines(rest));
      FeedAtHeading(pre, nh, more);
    }
  }

  /** The line the text was found in is the heading, and what is before it the preamble. */
  lemma AtHeading(ls: seq<string>, pre: seq<string>, p: string, more: seq<string>)
    requires AllOneLine(ls) && ls == pre + ([p + HEAD] + more)
    requires |pre| == FirstHeading(ls, 0) && ls[|pre|] == HEAD
    ensures IsPreamble(pre) && p + HEAD == HEAD
  {
    hide HeadingLine;
    assert ls[|pre|] == p + HEAD;
    assert |p + HEAD| == |p| + |HEAD|;
    assert p + HEAD == HEAD;
    assert forall i :: 0 <= i < |pre| ==> pre[i] == ls[i];
  }

  /**
   What `release` does, for every text, version and day. An unreadable text is refused, and a known version
   leaves the text alone. A new version of one line, or of any form once something was released, succeeds
   exactly when the text is `Releasable`, with one effect on its meaning. What is left is a version with a line
   feed in it in a changelog nothing was released from: it may succeed, and never has the one effect.
   */
  lemma ReleaseEffect(text: string, version: string, day: string)
    ensures var before, r := Parse(text), ReleaseText(text, version, day);
            if before.Err? then r.Err?
            else if HasVersion(before.value, version) then r == Ok(text)
            else if OneLine(version) || Released(before.value) != [] then
              && (r.Ok? <==> Releasable(text, version, day))
              && (r.Ok? ==> Parse(r.value) == Ok(Effect(before.value, version, day)))
            else
              r.Ok? ==> before.value != [] && Parse(r.value).Ok? && Parse(r.value) != Ok(Effect(before.value, version, day))
  {
    var r := ReleaseText(text, version, day);
    if Parse(text).Ok? && !HasVersion(Parse(text).value, version) {
      if OneLine(version) {
        NewVersionEffect(text, version, day);
      } else {
        FeedResult(text, version, day);
        NotReleasable(text, version, day);
        if r.Ok? {
          FeedHasNoEffect(r.value, Parse(text).value, version, day);
        }
      }
    }
    hide *;
  }

  lemma NotReleasable(text: string, version: string, day: string)
    requires !OneLine(version) && Parse(text).Ok?
    ensures !Releasable(text, version, day)
  {
    FeedHasNoKey(version);
  }

  lemma RerunOfFeed(text: string, version: string, day: string, again: string)
    requires !OneLine(version) && ReleaseText(text, version, day).Ok?
    ensures ReleaseText(ReleaseText(text, version, day).value, version, again).Err?
  {
    var out := ReleaseText(text, version, day).value;
    FeedResult(text, version, day);
    FeedLeavesTwo(text, version, day);
    ParseIsSound(out);
    ReleasedIsTail(Parse(out).value);
    FeedResult(out, version, again);
    hide ReleaseText, Parse, Released, OneLine;
  }

  /**
   Releasing the same version again, on any day, changes nothing; unless the version has a line feed in it, when
   the second run is always refused.
   */
  lemma RerunIsIdentity(text: string, version: string, day: string, again: string)
    ensures var first := ReleaseText(text, version, day);
            first.Ok? ==>
              var second := ReleaseText(first.value, version, again);
              if OneLine(version) then second == Ok(first.value) else second.Err?
  {
    hide Parse, Releasable, WithLinks, ReplaceFirst, OneLine;
    ReleaseEffect(text, version, day);
    var first := ReleaseText(text, version, day);
    if first.Ok? && !OneLine(version) {
      RerunOfFeed(text, version, day, again);
    } else if first.Ok? && !HasVersion(Parse(text).value, version) {
      assert Parse(first.value).value[1].version == version;
    }
  }

  /** After a release the link block is the one that would be rebuilt. */
  lemma ReleaseLeavesLinksInSync(text: string, version: string, day: string)
    ensures var r := ReleaseText(text, version, day);
            r.Ok? && r.value != text ==> Parse(r.value).Ok? && WithLinks(r.value, Parse(r.value).value) == r.value
  {
    var r := ReleaseText(text, version, day);
    if r.Ok? && r.value != text {
      var edited := Edited(text, version, day);
      var rs' := Parse(edited).value;
      ParseIsSound(edited);
      ReleasedDated(rs');
      WithLinksKeepsMeaning(edited, rs');
      WithLinksIdempotent(edited, rs');
    }
  }
}
