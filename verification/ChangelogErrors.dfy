/** What changelog.py refuses, where and why, and the exact text of the lines it writes. */
module ChangelogErrors {
  import opened Prelude
  import opened Text
  import opened Changelog
  import opened ChangelogFormat
  import opened ChangelogRelease
  import opened ChangelogTool

  // ---- one line ------------------------------------------------------------------------------------------

  /** Why a line is refused after the lines before it: each reason exactly when the line or its place is at fault. */
  lemma RefusalMeans(st: State, k: Kind)
    requires st.Valid()
    ensures var r, inside := Step(st, k), !st.links && st.releases != [];
            && (r == Err(AfterLinks) <==> st.links && !k.Blank? && !k.Link?)
            && (r == Err(UnreleasedPlace) <==>
                 !st.links && k.Heading? && k.version == "Unreleased" && (k.date.Some? || st.releases != []))
            && (r == Err(NeedsDate) <==> !st.links && k.Heading? && k.version != "Unreleased" && k.date.None?)
            && (r == Err(BadDate) <==>
                 !st.links && k.Heading? && k.version != "Unreleased" && k.date.Some? && !IsDate(k.date.value))
            && (r == Err(NoVersionYet) <==>
                 !st.links && st.releases == [] && (k.SectionHead? || k.Translation? || k.English? || k.Other?))
            && (r == Err(UnknownSection) <==>
                 inside && k.SectionHead? && k.name != "Added" && k.name != "Changed" && k.name != "Fixed" && k.name != "Security")
            && (r == Err(DuplicateSection) <==>
                 inside && k.SectionHead? && (k.name == "Added" || k.name == "Changed" || k.name == "Fixed" || k.name == "Security")
                 && exists s :: s in Last(st.releases).sections && s.name == k.name)
            && (r == Err(StrayTranslation) <==>
                 inside && k.Translation? && (!st.open || st.Sec() == [] || Last(st.Sec()).tr.Some?))
            && (r == Err(NoSection) <==> inside && k.English? && !st.open)
            && (r == Err(PreviousUntranslated) <==>
                 inside && k.English? && st.open && st.Sec() != [] && Last(st.Sec()).tr.None?)
            && (r == Err(Unexpected) <==> inside && k.Other?)
  {
    hide IsDate;
    SectionNames();
    if st.releases != [] && k.SectionHead? {
      var ss := Last(st.releases).sections;
      assert HasSection(ss, k.name) <==> exists s :: s in ss && s.name == k.name;
    }
  }

  lemma SectionNames()
    ensures forall name :: name in SECTIONS <==> name == "Added" || name == "Changed" || name == "Fixed" || name == "Security"
    ensures UNRELEASED == "Unreleased"
  {
  }

  lemma {:induction false} FoldFailsAt(ls: seq<string>, n: nat, st: State) returns (i: nat)
    requires st.Valid() && Fold(ls, n, st).Err?
    ensures i < |ls| && Fold(ls[..i], n, st).Ok? && Fold(ls, n, st).error.line == Some(n + i)
    ensures Step(Fold(ls[..i], n, st).value, Classify(ls[i])) == Err(Fold(ls, n, st).error.why)
    decreases |ls|
  {
    hide Classify, Step;
    var r := Step(st, Classify(ls[0]));
    if r.Err? {
      i := 0;
    } else {
      i := FoldFailsAt(ls[1..], n + 1, r.value);
      i := i + 1;
      assert ls[..i][1..] == ls[1..][..i - 1];
    }
  }

  /** The loop stops at line `n` of the text, counted from 1: the lines before it are taken, it is not. */
  ghost predicate StopsAt(ls: seq<string>, start: nat, n: nat, why: Why) {
    && start < n <= |ls|
    && var before := Fold(ls[start..n - 1], start + 1, INIT);
    before.Ok? && Step(before.value, Classify(ls[n - 1])) == Err(why)
  }

  /**
   A refused text has no line that starts with "## ", or a first line at fault below the first such line, whose number
   the error carries, or each of its lines is fine and the release list is not.
   */
  lemma ErrorMeans(text: string)
    ensures var ls, r := SplitLines(text), Parse(text);
            var start := FirstHeading(ls, 0);
            && (start == |ls| <==> forall i :: 0 <= i < |ls| ==> !StartsWith(ls[i], "## "))
            && (start < |ls| ==> StartsWith(ls[start], "## ") && forall i :: 0 <= i < start ==> !StartsWith(ls[i], "## "))
            && (start == |ls| ==> r == Err(Error(None, NoHeadings)))
            && (r.Err? && start < |ls| ==>
                 if r.error.line.Some? then StopsAt(ls, start, r.error.line.value, r.error.why)
                 else
                   var end := Fold(ls[start..], start + 1, INIT);
                   end.Ok? && Dated(Released(end.value.releases)) && Problem(end.value.releases) == Some(r.error.why))
  {
    hide Fold, Problem, Classify, SplitLines, FirstHeading, Step, Released;
    var ls := SplitLines(text);
    var start := FirstHeading(ls, 0);
    if start < |ls| {
      var body := ls[start..];
      FoldKeepsShape(body, start + 1, INIT);
      if Fold(body, start + 1, INIT).Err? {
        var i := FoldFailsAt(body, start + 1, INIT);
        assert body[..i] == ls[start..start + i] && body[i] == ls[start + i];
      } else {
        ReleasedDated(Fold(body, start + 1, INIT).value.releases);
      }
    }
  }

  // ---- the checks on the list ---------------------------------------------------------------------------------

  /** Section `j` of release `i` is the first with no entries or an untranslated one at its end. */
  predicate FirstUnfinished(rs: seq<Release>, i: nat, j: nat) {
    && i < |rs| && j < |rs[i].sections| && !SectionDone(rs[i].sections[j])
    && (forall h :: 0 <= h < i ==> SectionsDone(rs[h].sections))
    && forall h :: 0 <= h < j ==> SectionDone(rs[i].sections[h])
  }

  lemma {:induction false} SectionsProblemMeans(ss: seq<Section>) returns (j: nat)
    requires SectionsProblem(ss).Some?
    ensures j < |ss| && !SectionDone(ss[j]) && forall h :: 0 <= h < j ==> SectionDone(ss[h])
    ensures SectionsProblem(ss) == Some(if ss[j].entries == [] then EmptySection else Untranslated)
  {
    if SectionDone(ss[0]) {
      j := SectionsProblemMeans(ss[1..]);
      assert forall h :: 1 <= h < |ss| ==> ss[h] == ss[1..][h - 1];
      j := j + 1;
    } else {
      j := 0;
    }
  }

  lemma {:induction false} SectionProblemMeans(rs: seq<Release>) returns (i: nat, j: nat)
    requires SectionProblem(rs).Some?
    ensures FirstUnfinished(rs, i, j)
    ensures SectionProblem(rs) == Some(if rs[i].sections[j].entries == [] then EmptySection else Untranslated)
  {
    if SectionsProblem(rs[0].sections).Some? {
      i := 0;
      j := SectionsProblemMeans(rs[0].sections);
    } else {
      i, j := SectionProblemMeans(rs[1..]);
      assert forall h :: 1 <= h < |rs| ==> rs[h] == rs[1..][h - 1];
      i := i + 1;
    }
  }

  lemma OneFirstUnfinished(rs: seq<Release>, i: nat, j: nat, i': nat, j': nat)
    requires FirstUnfinished(rs, i, j) && FirstUnfinished(rs, i', j')
    ensures i == i' && j == j'
  {
    assert !SectionsDone(rs[i].sections) && !SectionsDone(rs[i'].sections);
  }

  /**
   What is wrong with a list whose lines are fine: the first unfinished section, empty or untranslated; else a released
   version without entries; else one that is not newer than the one below it.
   */
  lemma ProblemMeans(rs: seq<Release>)
    requires Dated(Released(rs))
    ensures var p, done := Problem(rs), Released(rs);
            var finished := forall i :: 0 <= i < |rs| ==> SectionsDone(rs[i].sections);
            var filled := forall i :: 0 <= i < |done| ==> Entries(done[i]) != [];
            && (forall i: nat, j: nat :: FirstUnfinished(rs, i, j) ==>
                 p == Some(if rs[i].sections[j].entries == [] then EmptySection else Untranslated))
            && (finished && !filled ==> p == Some(NoEntries))
            && (finished && filled && (exists i :: 0 <= i < |done| - 1 && !NewerThan(done[i], done[i + 1])) ==> p == Some(NotNewer))
            && (finished && filled && (forall i :: 0 <= i < |done| - 1 ==> NewerThan(done[i], done[i + 1])) ==> p == None)
  {
    hide Entries, NewerThan, SectionDone;
    forall i: nat, j: nat | FirstUnfinished(rs, i, j)
      ensures Problem(rs) == Some(if rs[i].sections[j].entries == [] then EmptySection else Untranslated)
    {
      assert !SectionsDone(rs[i].sections);
      var i', j' := SectionProblemMeans(rs);
      OneFirstUnfinished(rs, i, j, i', j');
    }
  }

  /** The released versions: all but "Unreleased", in their order. */
  lemma {:induction false} ReleasedMeans(rs: seq<Release>, more: seq<Release>, r: Release)
    ensures Released([]) == []
    ensures Released([r] + rs) == if r.version == "Unreleased" then Released(rs) else [r] + Released(rs)
  {
    assert ([r] + rs)[1..] == rs;
    assert [] + Released(rs) == Released(rs);
  }

  // ---- a refused release ---------------------------------------------------------------------------------------

  /** The reasons of `release`, in the order it looks for them. */
  lemma ReleaseRefusal(text: string, version: string, day: string)
    requires Parse(text).Ok? && !HasVersion(Parse(text).value, version)
    ensures var rs, r := Parse(text).value, ReleaseText(text, version, day);
            var done := Released(rs);
            var notAbove := done != [] && !KeyAbove(version, done[0].version);
            var nothing := rs == [] || rs[0].version != "Unreleased" || Entries(rs[0]) == [];
            && (notAbove ==> r == Err(Error(None, NotNewer)))
            && (!notAbove && nothing ==> r == Err(Error(None, NothingToRelease)))
            && (!notAbove && !nothing && !IsDate(day) ==> r == Err(Error(None, BadDate)))
            && (!notAbove && !nothing && IsDate(day) && r.Err? ==>
                 var edited := Parse(ReplaceFirst(text, "## [Unreleased]\n", NewTop(version, day)));
                 edited.Err? && r.error == edited.error)
  {
    HeadText();
    hide Parse, KeyAbove, Entries, IsDate, ReplaceFirst, WithLinks, Released, HeadingLine, HasVersion, NewTop;
  }

  lemma HeadText()
    ensures HEAD + "\n" == "## [Unreleased]\n" && UNRELEASED == "Unreleased"
  {
  }

  /** The two headings that take the place of the open one. */
  lemma NewTopText(version: string, day: string)
    ensures NewTop(version, day) == "## [Unreleased]\n\n## [" + version + "] - " + day + "\n"
  {
    HeadText();
    var h := "## [" + version + "]" + (" - " + day);
    assert HeadingLine(version, Some(day)) == h;
    assert h == "## [" + version + "] - " + day;
    hide HeadingLine;
  }

  // ---- the link block -----------------------------------------------------------------------------------------------

  const COMPARE := "https://github.com/alxndr-bnd/javi/compare/v"

  const TAGS := "https://github.com/alxndr-bnd/javi/releases/tag/v"

  lemma Urls()
    ensures REPO_URL + "/compare/v" == COMPARE && REPO_URL + "/releases/tag/v" == TAGS
  {
  }

  lemma CompareLine(tag: string, from: string, to: string)
    ensures LinkLine(tag, CompareUrl(from, to)) == "[" + tag + "]: " + COMPARE + from + "..." + to
  {
    Urls();
    var url := COMPARE + from + "..." + to;
    assert CompareUrl(from, to) == url;
    hide CompareUrl;
    LinkParts2(tag, url);
    Assoc("[" + tag + "]: ", COMPARE, from);
    Assoc("[" + tag + "]: ", COMPARE + from, "...");
    Assoc("[" + tag + "]: ", COMPARE + from + "...", to);
  }

  lemma LinkParts2(v: string, url: string)
    ensures LinkLine(v, url) == "[" + v + "]: " + url
  {
    assert "]" + (": " + url) == "]: " + url;
  }

  lemma TagLine(v: string)
    ensures LinkLine(v, TagUrl(v)) == "[" + v + "]: " + TAGS + v
  {
    Urls();
    assert TagUrl(v) == TAGS + v;
    hide TagUrl;
    LinkParts2(v, TAGS + v);
    Assoc("[" + v + "]: ", TAGS, v);
  }

  lemma {:induction false} VersionLinksMean(done: seq<Release>, i: nat)
    requires i < |done|
    ensures |VersionLinks(done)| == |done|
    ensures VersionLinks(done)[i]
         == VersionLink(done[i].version, if i + 1 < |done| then Some(done[i + 1].version) else None)
    decreases |done|
  {
    hide VersionLink;
    if |done| > 1 {
      VersionLinksMean(done[1..], if i > 0 then i - 1 else 0);
    }
  }

  /**
   The link block: the open entries are compared from the latest version to the head, every version from the one below
   it, the older one, to itself, and the oldest links to its tag.
   */
  lemma LinkLinesMean(rs: seq<Release>)
    ensures var done, links := Released(rs), LinkLines(rs);
            && (done == [] ==> links == [])
            && (done != [] ==>
                 && |links| == |done| + 1
                 && links[0] == "[Unreleased]: " + COMPARE + done[0].version + "...HEAD"
                 && links[|done|] == "[" + Last(done).version + "]: " + TAGS + Last(done).version
                 && forall i :: 0 <= i < |done| - 1 ==>
                      links[i + 1] == "[" + done[i].version + "]: " + COMPARE + done[i + 1].version + "..." + ("v" + done[i].version))
  {
    hide LinkLine, CompareUrl, TagUrl, Released;
    var done := Released(rs);
    if done != [] {
      assert "[" + "Unreleased" + "]: " == "[Unreleased]: ";
      CompareLine("Unreleased", done[0].version, "HEAD");
      assert UNRELEASED == "Unreleased";
      VersionLinksMean(done, |done| - 1);
      TagLine(Last(done).version);
      forall i | 0 <= i < |done| - 1
        ensures LinkLines(rs)[i + 1] == "[" + done[i].version + "]: " + COMPARE + done[i + 1].version + "..." + ("v" + done[i].version)
      {
        VersionLinksMean(done, i);
        CompareLine(done[i].version, done[i + 1].version, "v" + done[i].version);
      }
    }
  }

  // ---- the text of a release -----------------------------------------------------------------------------------------

  /** The first `k` lines are kept: no blank line or link at their end, nothing else below them. */
  predicate Keeps(ls: seq<string>, k: nat) {
    && k <= |ls| && (forall i :: k <= i < |ls| ==> IsBlank(ls[i]) || IsLink(ls[i]))
    && (k > 0 ==> !IsBlank(ls[k - 1]) && !IsLink(ls[k - 1]))
  }

  /** A text with its links rebuilt: its lines without the blank lines and links at the end, a blank line, the links. */
  lemma WithLinksMeans(text: string, rs: seq<Release>) returns (k: nat)
    ensures Keeps(SplitLines(text), k)
    ensures WithLinks(text, rs) == Unlines(SplitLines(text)[..k]) + "\n" + Unlines(LinkLines(rs))
  {
    hide Trim, SplitLines, LinkLines, IsBlank, IsLink, RStrip, Unlines, Keeps;
    TrimIgnoresLineFeeds(text);
    var kept := Trim(SplitLines(text));
    TrimKeeps(SplitLines(text));
    k := |kept|;
    UnlinesBlankLine(kept, LinkLines(rs));
  }

  lemma TrimKeeps(ls: seq<string>)
    ensures Keeps(ls, |Trim(ls)|) && Trim(ls) == ls[..|Trim(ls)|]
  {
    hide Trim, IsBlank, IsLink;
    var kept := Trim(ls);
    assert kept == ls[..|kept|];
    assert kept != [] ==> Last(kept) == ls[|kept| - 1];
  }

  lemma UnlinesBlankLine(a: seq<string>, b: seq<string>)
    ensures Unlines(a + ([""] + b)) == Unlines(a) + "\n" + Unlines(b)
  {
    UnlinesAppend(a, [""] + b);
    UnlinesCons("", b);
    hide Unlines;
    assert "" + "\n" == "\n";
    Assoc(Unlines(a), "\n", Unlines(b));
  }

  /** Replacing once takes the first place where the text occurs. */
  lemma ReplaceMeans(a: string, p: string, b: string, q: string)
    requires forall i :: 0 <= i < |a| ==> !OccursAt(a + p + b, p, i)
    ensures ReplaceFirst(a + p + b, p, q) == a + q + b
  {
    var t := a + p + b;
    assert t[|a|..|a| + |p|] == p;
    assert OccursAt(t, p, |a|);
    assert FindFrom(t, p, 0) == |a|;
    hide FindFrom;
    assert t[..|a|] == a && t[|a| + |p|..] == b;
  }

  lemma ReplaceNothing(t: string, p: string, q: string)
    requires forall i :: 0 <= i <= |t| ==> !OccursAt(t, p, i)
    ensures ReplaceFirst(t, p, q) == t
  {
  }

  /** What a release of a new version writes: the new heading below the open one, and the links of what that reads as. */
  lemma ReleaseWrites(text: string, version: string, day: string)
    requires Parse(text).Ok? && !HasVersion(Parse(text).value, version) && ReleaseText(text, version, day).Ok?
    ensures var edited := ReplaceFirst(text, "## [Unreleased]\n", "## [Unreleased]\n\n## [" + version + "] - " + day + "\n");
            Parse(edited).Ok? && ReleaseText(text, version, day).value == WithLinks(edited, Parse(edited).value)
  {
    HeadText();
    NewTopText(version, day);
    hide Parse, KeyAbove, Entries, IsDate, ReplaceFirst, WithLinks, Released, HeadingLine, HasVersion, NewTop;
  }

  // ---- the notes -------------------------------------------------------------------------------------------------------

  lemma FullHistoryText()
    ensures REPO_URL == "https://github.com/alxndr-bnd/javi"
    ensures FULL_HISTORY == "Full history: [CHANGELOG.md](" + REPO_URL + "/blob/main/CHANGELOG.md)"
  {
  }

  /** The block of a section in the notes: its heading, its English lines, a blank line; no block where there is none. */
  lemma NotesBlock(r: Release, name: string, rest: seq<string>, es: seq<Entry>)
    requires HasSection(r.sections, name) && es == SectionEntries(r.sections, name)
    ensures var block := NotesSections(r, [name] + rest);
            && |block| == |es| + 2 + |NotesSections(r, rest)|
            && block[0] == "### " + name && block[|es| + 1] == ""
            && (forall i :: 0 <= i < |es| ==> block[i + 1] == "- " + es[i].en)
            && block[|es| + 2..] == NotesSections(r, rest)
  {
    EnglishLinesMean(es);
    assert ([name] + rest)[1..] == rest;
    hide HasSection, SectionEntries, EnglishLines;
  }

  lemma NotesNoBlock(r: Release, name: string, rest: seq<string>)
    requires !HasSection(r.sections, name)
    ensures NotesSections(r, [name] + rest) == NotesSections(r, rest) && NotesSections(r, []) == []
  {
    assert ([name] + rest)[1..] == rest;
    assert [] + NotesSections(r, rest) == NotesSections(r, rest);
  }

  lemma {:induction false} EnglishLinesMean(es: seq<Entry>)
    ensures |EnglishLines(es)| == |es| && forall i :: 0 <= i < |es| ==> EnglishLines(es)[i] == "- " + es[i].en
  {
    if es != [] {
      EnglishLinesMean(es[1..]);
      assert EnglishLine(es[0]) == "- " + es[0].en;
      hide EnglishLine;
    }
  }
}
