/** What `release` does to the parsed meaning of a changelog. */
module ChangelogReleaseProof {
  import opened Prelude
  import opened Text
  import opened Changelog
  import opened ChangelogFormat
  import opened ChangelogRoundTrip
  import opened ChangelogRelease

  lemma HeadIsHeading()
    ensures Classify(HEAD) == Heading(UNRELEASED, None) && StartsWith(HEAD, HEADING_PREFIX) && OneLine(HEAD)
  {
    HeadingLineIsHeading(UNRELEASED, None);
  }

  // ---- the edit, line by line ------------------------------------------------------------

  /** Where the searched text was found: after the lines `pre`, at the end of the line `p + HEAD`. */
  ghost predicate Found(text: string, pre: seq<string>, p: string, rest: string) {
    && AllOneLine(pre) && OneLine(p)
    && text == Unlines(pre) + ((p + HEAD) + "\n" + rest)
    && FindFrom(text, HEAD + "\n", 0) == |Unlines(pre)| + |p|
  }

  lemma CutAtPattern(text: string, pat: string, i: nat)
    requires OccursAt(text, pat, i)
    ensures text == text[..i] + (pat + text[i + |pat|..])
  {
  }

  lemma Locate(text: string) returns (pre: seq<string>, p: string, rest: string)
    requires FindFrom(text, HEAD + "\n", 0) <= |text|
    ensures Found(text, pre, p, rest)
  {
    var pat := HEAD + "\n";
    var i := FindFrom(text, pat, 0);
    CutAtPattern(text, pat, i);
    var a := text[..i];
    pre, p, rest := FullLines(a), Remainder(a), text[i + |pat|..];
    Recompose(a);
    hide FindFrom, Unlines, FullLines, Remainder, HeadingLine;
    Assoc(Unlines(pre), p, pat + rest);
    Assoc(p, pat, rest);
    Assoc(p, HEAD, "\n");
  }

  lemma FoundLines(text: string, pre: seq<string>, p: string, rest: string)
    requires Found(text, pre, p, rest)
    ensures SplitLines(text) == pre + ([p + HEAD] + SplitLines(rest))
  {
    var l := p + HEAD;
    HeadIsHeading();
    hide HeadingLine, FindFrom, SplitLines;
    assert OneLine(l);
    SplitUnlines(pre, l + "\n" + rest);
    SplitCons(l, rest);
  }

  /** Three whole lines between whole lines and the rest. */
  lemma ThreeLines(pre: seq<string>, a: string, b: string, c: string, rest: string)
    requires AllOneLine(pre) && OneLine(a) && OneLine(b) && OneLine(c)
    ensures SplitLines(Unlines(pre) + ((a + "\n" + (b + "\n" + (c + "\n"))) + rest)) == pre + ([a, b, c] + SplitLines(rest))
  {
    var all := pre + [a, b, c];
    hide SplitLines;
    assert AllOneLine(all);
    UnlinesAppend(pre, [a, b, c]);
    UnlinesThree(a, b, c);
    Assoc(Unlines(pre), a + "\n" + (b + "\n" + (c + "\n")), rest);
    SplitUnlines(all, rest);
    Assoc(pre, [a, b, c], SplitLines(rest));
  }

  lemma EditedLines(text: string, pre: seq<string>, p: string, rest: string, version: string, day: string)
    requires Found(text, pre, p, rest) && OneLine(HeadingLine(version, Some(day)))
    ensures SplitLines(ReplaceFirst(text, HEAD + "\n", NewTop(version, day)))
         == pre + ([p + HEAD, "", HeadingLine(version, Some(day))] + SplitLines(rest))
  {
    EditedText(text, pre, p, rest, version, day);
    HeadIsHeading();
    hide FindFrom, HeadingLine, SplitLines, ReplaceFirst, Unlines;
    assert OneLine(p + HEAD) && OneLine("");
    ThreeLines(pre, p + HEAD, "", HeadingLine(version, Some(day)), rest);
  }

  lemma UnlinesThree(a: string, b: string, c: string)
    ensures Unlines([a, b, c]) == a + "\n" + (b + "\n" + (c + "\n"))
  {
    UnlinesCons(a, [b, c]);
    UnlinesCons(b, [c]);
    UnlinesCons(c, []);
    assert [a] + [b, c] == [a, b, c] && [b] + [c] == [b, c] && [c] + [] == [c];
    assert c + "\n" + "" == c + "\n";
  }

  lemma EditedText(text: string, pre: seq<string>, p: string, rest: string, version: string, day: string)
    requires Found(text, pre, p, rest)
    ensures ReplaceFirst(text, HEAD + "\n", NewTop(version, day))
         == Unlines(pre) + (((p + HEAD) + "\n" + ("" + "\n" + (HeadingLine(version, Some(day)) + "\n"))) + rest)
  {
    hide HeadingLine, Unlines, FindFrom;
    var u, top := Unlines(pre), NewTop(version, day);
    var i := |u| + |p|;
    var pat := HEAD + "\n";
    assert text == (u + p) + (pat + rest);
    assert text[..i] == u + p && text[i + |pat|..] == rest;
    var h := HeadingLine(version, Some(day)) + "\n";
    assert top == HEAD + "\n" + "\n" + h;
    assert (u + p) + top + rest == u + (((p + HEAD) + "\n" + ("" + "\n" + h)) + rest);
  }

  // ---- moving the open entries below the new heading ---------------------------------------

  /** The Unreleased entries read so far, moved to the release `top`. */
  function Moved(st: State, top: Release): State
    requires st.releases != []
  {
    State([st.releases[0].(sections := []), top.(sections := st.releases[0].sections)] + st.releases[1..],
          st.open, st.links)
  }

  predicate Movable(st: State) {
    st.Valid() && st.releases != [] && st.releases[0].version == UNRELEASED
  }

  lemma MovedLast(st: State, top: Release)
    requires Movable(st)
    ensures Moved(st, top).Valid()
    ensures Last(Moved(st, top).releases).sections == Last(st.releases).sections
    ensures st.open ==> Moved(st, top).Sec() == st.Sec()
  {
  }

  lemma MovedWithLast(st: State, top: Release, sections: seq<Section>, open: bool)
    requires Movable(st) && (open ==> sections != [])
    ensures var st' := State(Front(st.releases) + [Last(st.releases).(sections := sections)], open, st.links);
            && Movable(st')
            && Moved(st', top)
               == State(Front(Moved(st, top).releases) + [Last(Moved(st, top).releases).(sections := sections)], open, st.links)
  {
    var rs, last := st.releases, Last(st.releases).(sections := sections);
    var st' := State(Front(rs) + [last], open, st.links);
    var moved := Moved(st, top).releases;
    if |rs| == 1 {
      assert st'.releases == [last] && moved == [rs[0].(sections := []), top.(sections := rs[0].sections)];
      assert st'.releases[1..] == [];
    } else {
      assert st'.releases[0] == rs[0];
      assert st'.releases[1..] == Front(rs[1..]) + [last];
      assert Front(moved) == [rs[0].(sections := []), top.(sections := rs[0].sections)] + Front(rs[1..]);
      assert Last(moved) == Last(rs);
    }
  }

  lemma MovedHeading(st: State, top: Release, r: Release)
    requires Movable(st)
    ensures var st' := State(st.releases + [r], false, st.links);
            && Movable(st')
            && Moved(st', top) == State(Moved(st, top).releases + [r], false, st.links)
  {
  }

  lemma MovedWithSec(st: State, top: Release, es: seq<Entry>)
    requires Movable(st) && st.open && Moved(st, top).Valid()
    ensures Movable(st.WithSec(es)) && Moved(st.WithSec(es), top) == Moved(st, top).WithSec(es)
  {
  }

  /** One line has the same effect before and after the move. */
  lemma StepMoved(st: State, top: Release, k: Kind)
    requires Movable(st)
    ensures Moved(st, top).Valid()
    ensures match Step(st, k)
            case Err(why) => Step(Moved(st, top), k) == Err(why)
            case Ok(next) => Movable(next) && Step(Moved(st, top), k) == Ok(Moved(next, top))
  {
    MovedLast(st, top);
    if k.Blank? || k.Link? || st.links {
    } else if k.Heading? {
      MovedHeading(st, top, Release(k.version, k.date, []));
    } else if k.SectionHead? {
      MovedWithLast(st, top, Last(st.releases).sections + [Section(k.name, [])], true);
    } else if st.open && k.English? {
      MovedWithSec(st, top, st.Sec() + [Entry(k.text, None)]);
    } else if st.open && k.Translation? && st.Sec() != [] {
      MovedWithSec(st, top, Front(st.Sec()) + [Last(st.Sec()).(tr := Some(k.text))]);
    }
  }

  lemma {:induction false} FoldMoved(ls: seq<string>, n: nat, m: nat, st: State, top: Release)
    requires Movable(st)
    ensures Moved(st, top).Valid()
    ensures Fold(ls, n, st).Ok? <==> Fold(ls, m, Moved(st, top)).Ok?
    ensures Fold(ls, n, st).Ok? ==>
              var end := Fold(ls, n, st).value;
              Movable(end) && Fold(ls, m, Moved(st, top)).value == Moved(end, top)
    decreases |ls|
  {
    hide Classify;
    MovedLast(st, top);
    if ls != [] {
      StepMoved(st, top, Classify(ls[0]));
      if Step(st, Classify(ls[0])).Ok? {
        FoldMoved(ls[1..], n + 1, m + 1, Step(st, Classify(ls[0])).value, top);
      }
    }
  }

  // ---- a second Unreleased heading -----------------------------------------------------------

  lemma {:induction false} SecondUnreleasedFails(ls: seq<string>, n: nat, st: State)
    requires st.Valid() && st.releases != [] && HEAD in ls
    ensures Fold(ls, n, st).Err?
    decreases |ls|
  {
    HeadIsHeading();
    hide Classify;
    if ls[0] != HEAD {
      assert HEAD in ls[1..];
      var r := Step(st, Classify(ls[0]));
      if r.Ok? {
        SecondUnreleasedFails(ls[1..], n + 1, r.value);
      }
    }
  }

  // ---- the new heading -------------------------------------------------------------------------

  lemma NewHeadingKind(version: string, day: string)
    requires IsDate(day) && version != UNRELEASED
    ensures var k := Classify(HeadingLine(version, Some(day)));
            if IsVersion(version) then k == Heading(version, Some(day)) else k == Other
    ensures StartsWith(HeadingLine(version, Some(day)), HEADING_PREFIX)
  {
    var line := HeadingLine(version, Some(day));
    assert line[0] == '#' && line[1] == '#' && line[2] == ' ' && line[3] == '[' && line[..3] == "## ";
    if IsVersion(version) {
      HeadingLineIsHeading(version, Some(day));
    } else {
      NotBlank(line, 0);
      HashIsNoLink(line);
      NotAVersionHeading(version, day);
      assert line[..2] == "##" && TR_PREFIX[0] == ' ' && EN_PREFIX[0] == '-';
      assert !StartsWith(line, SECTION_PREFIX) by {
        assert SECTION_PREFIX[2] == '#';
        assert |line| >= 4 ==> line[..4][2] == line[2];
      }
      assert !StartsWith(line, TR_PREFIX) by {
        assert |line| >= 8 ==> line[..8][0] == line[0];
      }
      assert !StartsWith(line, EN_PREFIX) by {
        assert |line| >= 2 ==> line[..2][0] == line[0];
      }
    }
  }

  lemma NotAVersionHeading(version: string, day: string)
    requires IsDate(day) && !IsVersionTag(version)
    ensures HeadingOf(HeadingLine(version, Some(day))).None?
  {
    var after := " - " + day;
    var rest := version + "]" + after;
    assert HeadingLine(version, Some(day)) == "## [" + rest;
    StartsWithAppend("## [", rest);
    if ']' in version {
      var j := IndexOf(version, ']');
      CutInVersion(version, after);
      assert |rest[j + 1..]| > 13;
    } else {
      CutAtBracket(version, after);
    }
  }

  lemma CutInVersion(version: string, after: string)
    requires ']' in version
    ensures IndexOf(version + "]" + after, ']') == IndexOf(version, ']') < |version|
  {
    var rest := version + "]" + after;
    var i := IndexOf(version, ']');
    var k :| 0 <= k < |version| && version[k] == ']';
    assert i <= k;
    assert rest[i] == ']' && forall m :: 0 <= m < i ==> rest[m] == version[m];
  }

  // ---- where the searched text is found ----------------------------------------------------------

  lemma LineOccurs(ls: seq<string>, j: nat, tail: string, q: string)
    requires j < |ls| && ls[j] == q + HEAD
    ensures OccursAt(Unlines(ls) + tail, HEAD + "\n", |Unlines(ls[..j])| + |q|)
  {
    hide HeadingLine;
    var a, b := ls[..j], ls[j + 1..];
    assert ls == a + ([ls[j]] + b);
    UnlinesAppend(a, [ls[j]] + b);
    UnlinesCons(ls[j], b);
    var pat := HEAD + "\n";
    assert Unlines(ls) + tail == Unlines(a) + q + (pat + (Unlines(b) + tail));
  }

  lemma PrefixLength(ls: seq<string>, i: nat, j: nat)
    requires i < j <= |ls|
    ensures |Unlines(ls[..i])| + |ls[i]| < |Unlines(ls[..j])|
  {
    assert ls[..j] == ls[..i] + ([ls[i]] + ls[i + 1..j]);
    UnlinesAppend(ls[..i], [ls[i]] + ls[i + 1..j]);
    UnlinesCons(ls[i], ls[i + 1..j]);
  }

  /** The search stops no later than at any line that ends in the heading text. */
  lemma FoundBefore(text: string, pre: seq<string>, p: string, rest: string, j: nat, q: string)
    requires Found(text, pre, p, rest)
    requires j < |FullLines(text)| && FullLines(text)[j] == q + HEAD
    ensures |pre| <= j
  {
    var ls := FullLines(text);
    Recompose(text);
    LineOccurs(ls, j, Remainder(text), q);
    var i := |Unlines(pre)| + |p|;
    assert i <= |Unlines(ls[..j])| + |q|;
    if j < |pre| {
      FoundFullLines(text, pre, p, rest);
      assert ls[..|pre|] == pre;
      PrefixLength(ls, j, |pre|);
      assert false;
    }
  }

  lemma FoundFullLines(text: string, pre: seq<string>, p: string, rest: string)
    requires Found(text, pre, p, rest)
    ensures FullLines(text) == pre + ([p + HEAD] + FullLines(rest))
  {
    var l := p + HEAD;
    HeadIsHeading();
    hide HeadingLine, FindFrom;
    assert OneLine(l);
    SplitUnlines(pre, l + "\n" + rest);
    FullLinesCons(l, rest);
  }
}
