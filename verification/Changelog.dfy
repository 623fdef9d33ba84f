/**
 The strict parser of changelog.py: one left-to-right pass over the lines of CHANGELOG.md.
 Text and release lists are values; `ParseLoop` is the loop the script runs.
 */
module Changelog {
  import opened Prelude
  import opened Text
  import Calendar

  const UNRELEASED := "Unreleased"
  const SECTIONS: seq<string> := ["Added", "Changed", "Fixed", "Security"]

  datatype Entry = Entry(en: string, tr: Option<string>)

  datatype Section = Section(name: string, entries: seq<Entry>)

  datatype Release = Release(version: string, date: Option<string>, sections: seq<Section>)

  datatype Why =
    | NoHeadings | AfterLinks | UnreleasedPlace | NeedsDate | BadDate | NoVersionYet
    | UnknownSection | DuplicateSection | StrayTranslation | NoSection | PreviousUntranslated
    | Unexpected | EmptySection | Untranslated | NoEntries | NotNewer | NothingToRelease

  /** `line` is the line number of a format error; the checks on whole releases have none. */
  datatype Error = Error(line: Option<nat>, why: Why)

  // ---- versions and dates ----------------------------------------------------

  /** `\d+\.\d+\.\d+` */
  predicate IsVersion(v: string) {
    var parts := Split(v, '.');
    |parts| == 3 && forall i :: 0 <= i < |parts| ==> parts[i] != "" && AllDigits(parts[i])
  }

  function ToNats(parts: seq<string>): seq<nat>
    requires forall i :: 0 <= i < |parts| ==> AllDigits(parts[i])
  {
    if parts == [] then [] else [ToNat(parts[0])] + ToNats(parts[1..])
  }

  /** `vkey`; None where `int` refuses a piece. */
  function VKeyOf(v: string): Option<seq<nat>> {
    var parts := Split(v, '.');
    if forall i :: 0 <= i < |parts| ==> parts[i] != "" && AllDigits(parts[i])
    then Some(ToNats(parts)) else None
  }

  function VKey(v: string): seq<nat>
    requires IsVersion(v)
  {
    VKeyOf(v).value
  }

  /** `\d{4}-\d{2}-\d{2}` */
  predicate IsDateShape(d: string) {
    && |d| == 10 && d[4] == '-' && d[7] == '-'
    && AllDigits(d[..4]) && AllDigits(d[5..7]) && AllDigits(d[8..])
  }

  /** A date that `date.fromisoformat` takes. */
  predicate IsDate(d: string) {
    && IsDateShape(d)
    && var y, m, day := ToNat(d[..4]), ToNat(d[5..7]), ToNat(d[8..]);
    1 <= y && 1 <= m <= 12 && 1 <= day <= Calendar.DaysIn(y, m)
  }

  // ---- one line --------------------------------------------------------------

  datatype Kind =
    | Blank
    | Link
    | Heading(version: string, date: Option<string>)
    | SectionHead(name: string)
    | Translation(text: string)
    | English(text: string)
    | Other

  predicate IsVersionTag(v: string) {
    v == UNRELEASED || IsVersion(v)
  }

  /** `## [version]`, `## [version] - date` */
  function HeadingOf(line: string): Option<(string, Option<string>)> {
    if !StartsWith(line, "## [") then None else
    var rest := line[4..];
    var j := IndexOf(rest, ']');
    if j == |rest| || !IsVersionTag(rest[..j]) then None else
    var after := rest[j + 1..];
    if after == "" then Some((rest[..j], None))
    else if StartsWith(after, " - ") && IsDateShape(after[3..]) then Some((rest[..j], Some(after[3..])))
    else None
  }

  /** `[version]: url` */
  predicate IsLink(line: string) {
    && StartsWith(line, "[")
    && var rest := line[1..];
    var j := IndexOf(rest, ']');
    && j < |rest| && IsVersionTag(rest[..j])
    && StartsWith(rest[j..], "]: ") && |rest[j..]| > 3 && NoSpace(rest[j + 3..])
  }

  /** What follows `prefix` when it starts with something other than white space. */
  function TextAfter(line: string, prefix: string): Option<string> {
    if StartsWith(line, prefix) && |line| > |prefix| && !IsSpace(line[|prefix|])
    then Some(line[|prefix|..]) else None
  }

  const EN_PREFIX := "- "
  const TR_PREFIX := "  - SR: "
  const SECTION_PREFIX := "### "

  function Classify(line: string): Kind {
    if IsBlank(line) then Blank
    else if IsLink(line) then Link
    else if HeadingOf(line).Some? then Heading(HeadingOf(line).value.0, HeadingOf(line).value.1)
    else if StartsWith(line, SECTION_PREFIX) && |line| > 4 then SectionHead(line[4..])
    else if TextAfter(line, TR_PREFIX).Some? then Translation(TextAfter(line, TR_PREFIX).value)
    else if TextAfter(line, EN_PREFIX).Some? then English(TextAfter(line, EN_PREFIX).value)
    else Other
  }

  // ---- the state of the loop ---------------------------------------------------

  /** `open` says that `sec` is the list of the last section of the last release, not None. */
  datatype State = State(releases: seq<Release>, open: bool, links: bool) {
    predicate Valid() {
      open ==> releases != [] && Last(releases).sections != []
    }

    /** The list `sec` stands for. */
    function Sec(): seq<Entry>
      requires Valid() && open
    {
      Last(Last(releases).sections).entries
    }

    /** The state after `sec` became `entries`. */
    function WithSec(entries: seq<Entry>): (s: State)
      requires Valid() && open
      ensures s.Valid()
    {
      var r := Last(releases);
      var sections := Front(r.sections) + [Last(r.sections).(entries := entries)];
      this.(releases := Front(releases) + [r.(sections := sections)])
    }
  }

  const INIT := State([], false, false)

  predicate HasSection(sections: seq<Section>, name: string) {
    exists i :: 0 <= i < |sections| && sections[i].name == name
  }

  function StepHeading(st: State, version: string, date: Option<string>): Result<State, Why> {
    if version == UNRELEASED && (date.Some? || st.releases != []) then Err(UnreleasedPlace)
    else if version != UNRELEASED && date.None? then Err(NeedsDate)
    else if version != UNRELEASED && !IsDate(date.value) then Err(BadDate)
    else Ok(State(st.releases + [Release(version, date, [])], false, st.links))
  }

  function StepSection(st: State, name: string): (r: Result<State, Why>)
    requires st.releases != []
    ensures r.Ok? ==> r.value.Valid()
  {
    var last := Last(st.releases);
    if name !in SECTIONS then Err(UnknownSection)
    else if HasSection(last.sections, name) then Err(DuplicateSection)
    else
      var sections := last.sections + [Section(name, [])];
      Ok(State(Front(st.releases) + [last.(sections := sections)], true, st.links))
  }

  function StepTranslation(st: State, text: string): (r: Result<State, Why>)
    requires st.Valid()
    ensures r.Ok? ==> r.value.Valid()
  {
    if !st.open || st.Sec() == [] || Last(st.Sec()).tr.Some? then Err(StrayTranslation)
    else Ok(st.WithSec(Front(st.Sec()) + [Last(st.Sec()).(tr := Some(text))]))
  }

  function StepEnglish(st: State, text: string): (r: Result<State, Why>)
    requires st.Valid()
    ensures r.Ok? ==> r.value.Valid()
  {
    if !st.open then Err(NoSection)
    else if st.Sec() != [] && Last(st.Sec()).tr.None? then Err(PreviousUntranslated)
    else Ok(st.WithSec(st.Sec() + [Entry(text, None)]))
  }

  /** One turn of the loop of `parse`. */
  function Step(st: State, k: Kind): (r: Result<State, Why>)
    requires st.Valid()
    ensures r.Ok? ==> r.value.Valid()
  {
    if k.Blank? then Ok(st)
    else if k.Link? then Ok(st.(links := true))
    else if st.links then Err(AfterLinks)
    else if k.Heading? then StepHeading(st, k.version, k.date)
    else if st.releases == [] then Err(NoVersionYet)
    else match k
      case SectionHead(name) => StepSection(st, name)
      case Translation(text) => StepTranslation(st, text)
      case English(text) => StepEnglish(st, text)
      case _ => Err(Unexpected)
  }

  /** The loop over `ls`, whose first line has number `n`. */
  function Fold(ls: seq<string>, n: nat, st: State): (r: Result<State, Error>)
    requires st.Valid()
    ensures r.Ok? ==> r.value.Valid()
    decreases |ls|
  {
    if ls == [] then Ok(st) else
    match Step(st, Classify(ls[0]))
    case Err(why) => Err(Error(Some(n), why))
    case Ok(next) => Fold(ls[1..], n + 1, next)
  }

  // ---- the checks after the loop -----------------------------------------------

  function Released(rs: seq<Release>): seq<Release> {
    if rs == [] then []
    else (if rs[0].version == UNRELEASED then [] else [rs[0]]) + Released(rs[1..])
  }

  predicate SectionDone(s: Section) {
    s.entries != [] && Last(s.entries).tr.Some?
  }

  predicate SectionsDone(ss: seq<Section>) {
    forall i :: 0 <= i < |ss| ==> SectionDone(ss[i])
  }

  function SectionsProblem(ss: seq<Section>): (p: Option<Why>)
    ensures p.None? <==> SectionsDone(ss)
  {
    if ss == [] then None
    else if ss[0].entries == [] then Some(EmptySection)
    else if Last(ss[0].entries).tr.None? then Some(Untranslated)
    else
      assert forall i :: 1 <= i < |ss| ==> ss[i] == ss[1..][i - 1];
      SectionsProblem(ss[1..])
  }

  function SectionProblem(rs: seq<Release>): (p: Option<Why>)
    ensures p.None? <==> forall i :: 0 <= i < |rs| ==> SectionsDone(rs[i].sections)
  {
    if rs == [] then None
    else if SectionsProblem(rs[0].sections).Some? then SectionsProblem(rs[0].sections)
    else
      assert forall i :: 1 <= i < |rs| ==> rs[i] == rs[1..][i - 1];
      SectionProblem(rs[1..])
  }

  /** `Release.entries`: the entries of the sections named in `names`, in that order. */
  function EntriesOf(r: Release, names: seq<string>): seq<Entry> {
    if names == [] then [] else SectionEntries(r.sections, names[0]) + EntriesOf(r, names[1..])
  }

  function SectionEntries(ss: seq<Section>, name: string): seq<Entry> {
    if ss == [] then []
    else if ss[0].name == name then ss[0].entries
    else SectionEntries(ss[1..], name)
  }

  function Entries(r: Release): seq<Entry> {
    EntriesOf(r, SECTIONS)
  }

  predicate AllHaveEntries(done: seq<Release>) {
    forall i :: 0 <= i < |done| ==> Entries(done[i]) != []
  }

  /** Versions and dates as the loop leaves them on released versions. */
  predicate Dated(done: seq<Release>) {
    forall i :: 0 <= i < |done| ==>
      IsVersion(done[i].version) && done[i].date.Some? && IsDate(done[i].date.value)
  }

  predicate NewerThan(a: Release, b: Release)
    requires IsVersion(a.version) && IsVersion(b.version) && a.date.Some? && b.date.Some?
  {
    !LexLeq(VKey(a.version), VKey(b.version)) && !StrLess(a.date.value, b.date.value)
  }

  predicate Descending(done: seq<Release>)
    requires Dated(done)
  {
    forall i :: 0 <= i < |done| - 1 ==> NewerThan(done[i], done[i + 1])
  }

  /** What the three checks after the loop find first. */
  function Problem(rs: seq<Release>): Option<Why>
    requires Dated(Released(rs))
  {
    if SectionProblem(rs).Some? then SectionProblem(rs)
    else if !AllHaveEntries(Released(rs)) then Some(NoEntries)
    else if !Descending(Released(rs)) then Some(NotNewer)
    else None
  }

  // ---- parse -------------------------------------------------------------------

  const HEADING_PREFIX := "## "

  /** Index of the first line from `i` on that starts with "## ", or the number of lines. */
  function FirstHeading(ls: seq<string>, i: nat): (r: nat)
    requires i <= |ls|
    ensures i <= r <= |ls|
    ensures r < |ls| ==> StartsWith(ls[r], HEADING_PREFIX)
    ensures forall k :: i <= k < r ==> !StartsWith(ls[k], HEADING_PREFIX)
    decreases |ls| - i
  {
    if i == |ls| || StartsWith(ls[i], HEADING_PREFIX) then i else FirstHeading(ls, i + 1)
  }

  function ParseLines(ls: seq<string>): Result<seq<Release>, Error>
    requires AllOneLine(ls)
  {
    var start := FirstHeading(ls, 0);
    if start == |ls| then Err(Error(None, NoHeadings)) else
    match Fold(ls[start..], start + 1, INIT)
    case Err(e) => Err(e)
    case Ok(st) =>
      FoldKeepsShape(ls[start..], start + 1, INIT);
      ReleasedDated(st.releases);
      if Problem(st.releases).Some? then Err(Error(None, Problem(st.releases).value))
      else Ok(st.releases)
  }

  /** `parse` */
  function Parse(text: string): Result<seq<Release>, Error> {
    ParseLines(SplitLines(text))
  }

  // ---- what the loop keeps -------------------------------------------------------

  predicate GoodText(s: string) {
    s != "" && !IsSpace(s[0]) && OneLine(s)
  }

  /** Every entry but perhaps the last has its translation. */
  predicate EntriesShape(es: seq<Entry>) {
    && (forall i :: 0 <= i < |es| ==> GoodText(es[i].en))
    && (forall i :: 0 <= i < |es| && es[i].tr.Some? ==> GoodText(es[i].tr.value))
    && forall i :: 0 <= i < |es| - 1 ==> es[i].tr.Some?
  }

  predicate SectionsShape(ss: seq<Section>) {
    && (forall i :: 0 <= i < |ss| ==> ss[i].name in SECTIONS && EntriesShape(ss[i].entries))
    && forall i, j :: 0 <= i < j < |ss| ==> ss[i].name != ss[j].name
  }

  predicate TitleShape(r: Release) {
    if r.version == UNRELEASED then r.date.None?
    else IsVersion(r.version) && r.date.Some? && IsDate(r.date.value)
  }

  predicate Shape(rs: seq<Release>) {
    && (forall i :: 0 <= i < |rs| ==> TitleShape(rs[i]) && SectionsShape(rs[i].sections))
    && forall i :: 1 <= i < |rs| ==> rs[i].version != UNRELEASED
  }

  lemma ClassifyShape(line: string)
    requires OneLine(line)
    ensures var k := Classify(line);
            && (k.Heading? ==> IsVersionTag(k.version))
            && (k.English? ==> GoodText(k.text))
            && (k.Translation? ==> GoodText(k.text))
  {
  }

  lemma ReplaceLastShape(rs: seq<Release>, sections: seq<Section>)
    requires Shape(rs) && rs != [] && SectionsShape(sections)
    ensures Shape(Front(rs) + [Last(rs).(sections := sections)])
  {
  }

  lemma WithSecShape(st: State, es: seq<Entry>)
    requires st.Valid() && st.open && Shape(st.releases) && EntriesShape(es)
    ensures Shape(st.WithSec(es).releases)
  {
    var r := Last(st.releases);
    assert SectionsShape(r.sections);
    var sections := Front(r.sections) + [Last(r.sections).(entries := es)];
    assert SectionsShape(sections);
    ReplaceLastShape(st.releases, sections);
  }

  lemma SecShape(st: State)
    requires st.Valid() && st.open && Shape(st.releases)
    ensures EntriesShape(st.Sec())
  {
  }

  lemma StepSectionKeepsShape(st: State, name: string)
    requires st.Valid() && Shape(st.releases) && st.releases != []
    ensures var r := StepSection(st, name); r.Ok? ==> Shape(r.value.releases)
  {
    var last := Last(st.releases);
    assert SectionsShape(last.sections);
    if name in SECTIONS && !HasSection(last.sections, name) {
      ReplaceLastShape(st.releases, last.sections + [Section(name, [])]);
    }
  }

  lemma StepTextKeepsShape(st: State, text: string)
    requires st.Valid() && Shape(st.releases) && st.open && GoodText(text)
    ensures var r := StepTranslation(st, text); r.Ok? ==> Shape(r.value.releases)
    ensures var r := StepEnglish(st, text); r.Ok? ==> Shape(r.value.releases)
  {
    SecShape(st);
    var es := st.Sec();
    if StepTranslation(st, text).Ok? {
      WithSecShape(st, Front(es) + [Last(es).(tr := Some(text))]);
    }
    if StepEnglish(st, text).Ok? {
      WithSecShape(st, es + [Entry(text, None)]);
    }
  }

  lemma StepKeepsShape(st: State, line: string)
    requires st.Valid() && Shape(st.releases) && OneLine(line)
    ensures var r := Step(st, Classify(line)); r.Ok? ==> Shape(r.value.releases)
  {
    ClassifyShape(line);
    var k := Classify(line);
    if st.releases != [] && k.SectionHead? {
      StepSectionKeepsShape(st, k.name);
    } else if st.open && (k.English? || k.Translation?) {
      StepTextKeepsShape(st, k.text);
    }
  }

  lemma {:induction false} FoldKeepsShape(ls: seq<string>, n: nat, st: State)
    requires st.Valid() && Shape(st.releases) && AllOneLine(ls)
    ensures var r := Fold(ls, n, st); r.Ok? ==> Shape(r.value.releases)
    decreases |ls|
  {
    if ls != [] {
      StepKeepsShape(st, ls[0]);
      var r := Step(st, Classify(ls[0]));
      if r.Ok? {
        FoldKeepsShape(ls[1..], n + 1, r.value);
      }
    }
  }

  lemma {:induction false} ReleasedDated(rs: seq<Release>)
    requires forall i :: 0 <= i < |rs| ==> TitleShape(rs[i])
    ensures Dated(Released(rs))
  {
    if rs != [] {
      ReleasedDated(rs[1..]);
    }
  }

  // ---- the loop ------------------------------------------------------------------

  method ParseLoop(text: string) returns (r: Result<seq<Release>, Error>)
    ensures r == Parse(text)
  {
    var lines := SplitLines(text);
    var start := FirstHeading(lines, 0);
    if start == |lines| {
      return Err(Error(None, NoHeadings));
    }
    var st, n := INIT, start;
    while n < |lines|
      invariant start <= n <= |lines|
      invariant st.Valid()
      invariant Fold(lines[start..], start + 1, INIT) == Fold(lines[n..], n + 1, st)
    {
      var next := Step(st, Classify(lines[n]));
      assert lines[n..][0] == lines[n] && lines[n..][1..] == lines[n + 1..];
      if next.Err? {
        return Err(Error(Some(n + 1), next.error));
      }
      st, n := next.value, n + 1;
    }
    FoldKeepsShape(lines[start..], start + 1, INIT);
    ReleasedDated(st.releases);
    var problem := Problem(st.releases);
    r := if problem.Some? then Err(Error(None, problem.value)) else Ok(st.releases);
  }
}
