/** The numbers of the changelog, against a writer of decimals of its own: versions compare as triples of numbers, dates as dates. */
module ChangelogNumbers {
  import opened Prelude
  import opened Text
  import opened Changelog
  import opened ChangelogRelease
  import Calendar

  // ---- writing numbers --------------------------------------------------------------------------------

  const DIGITS := "0123456789"

  /** A number in decimal, without leading zeros. */
  function Dec(n: nat): string {
    if n < 10 then [DIGITS[n]] else Dec(n / 10) + [DIGITS[n % 10]]
  }

  /** The last `width` digits of a number. */
  function Padded(n: nat, width: nat): string {
    if width == 0 then "" else Padded(n / 10, width - 1) + [DIGITS[n % 10]]
  }

  lemma DigitsCount()
    ensures forall k :: 0 <= k < 10 ==> IsDigit(DIGITS[k]) && DIGITS[k] as int - '0' as int == k
  {
  }

  lemma ToNatSnoc(s: string, c: char)
    requires AllDigits(s) && IsDigit(c)
    ensures AllDigits(s + [c]) && ToNat(s + [c]) == 10 * ToNat(s) + (c as int - '0' as int)
  {
    assert (s + [c])[..|s|] == s;
  }

  /** Reading a written number gives the number. */
  lemma {:induction false} ToNatOfDec(n: nat)
    ensures Dec(n) != "" && AllDigits(Dec(n)) && ToNat(Dec(n)) == n
  {
    DigitsCount();
    if n < 10 {
      ToNatSnoc("", DIGITS[n]);
      assert "" + [DIGITS[n]] == [DIGITS[n]];
    } else {
      ToNatOfDec(n / 10);
      ToNatSnoc(Dec(n / 10), DIGITS[n % 10]);
    }
  }

  function Power(width: nat): nat {
    if width == 0 then 1 else 10 * Power(width - 1)
  }

  lemma {:induction false} ToNatOfPadded(n: nat, width: nat)
    requires n < Power(width)
    ensures |Padded(n, width)| == width && AllDigits(Padded(n, width)) && ToNat(Padded(n, width)) == n
  {
    DigitsCount();
    if width > 0 {
      ToNatOfPadded(n / 10, width - 1);
      ToNatSnoc(Padded(n / 10, width - 1), DIGITS[n % 10]);
    }
  }

  /** Digits are a written number, with as many digits as there are. */
  lemma {:induction false} PaddedOfToNat(s: string)
    requires AllDigits(s)
    ensures ToNat(s) < Power(|s|) && Padded(ToNat(s), |s|) == s
  {
    DigitsCount();
    if s != "" {
      var front, c := s[..|s| - 1], s[|s| - 1];
      PaddedOfToNat(front);
      assert s == front + [c];
      var k := c as int - '0' as int;
      assert ToNat(s) == 10 * ToNat(front) + k;
      assert DIGITS[k] == c;
      assert ToNat(s) / 10 == ToNat(front) && ToNat(s) % 10 == k;
    }
  }

  // ---- versions ------------------------------------------------------------------------------------------

  function Dotted(a: string, b: string, c: string): string {
    a + "." + b + "." + c
  }

  lemma SplitAt(a: string, c: char, rest: string)
    requires c !in a
    ensures Split(a + [c] + rest, c) == [a] + Split(rest, c)
    ensures Split(a, c) == [a]
  {
    IndexOfAt(a, c, rest);
    var s := a + [c] + rest;
    assert s[..|a|] == a && s[|a| + 1..] == rest;
    assert [a] + [] == [a];
  }

  lemma NoDots(s: string)
    requires AllDigits(s)
    ensures '.' !in s
  {
    forall i | 0 <= i < |s| ensures s[i] != '.' {
      assert IsDigit(s[i]);
    }
  }

  lemma DottedParts(a: string, b: string, c: string)
    requires '.' !in a && '.' !in b && '.' !in c
    ensures Split(Dotted(a, b, c), '.') == [a, b, c]
  {
    hide Split;
    SplitAt(a, '.', b + "." + c);
    SplitAt(b, '.', c);
    SplitAt(c, '.', "");
    Assoc(a + ".", b, ".");
    Assoc(a + ".", b + ".", c);
    assert [a] + ([b] + [c]) == [a, b, c];
  }

  lemma {:induction false} SplitJoins(s: string)
    ensures Split(s, '.') != []
    ensures |Split(s, '.')| == 1 ==> s == Split(s, '.')[0]
    ensures |Split(s, '.')| > 1 ==>
              var i := IndexOf(s, '.');
              i < |s| && s == Split(s, '.')[0] + "." + s[i + 1..] && Split(s[i + 1..], '.') == Split(s, '.')[1..]
  {
    var i := IndexOf(s, '.');
    if i < |s| {
      assert s == s[..i] + "." + s[i + 1..];
      assert ([s[..i]] + Split(s[i + 1..], '.'))[1..] == Split(s[i + 1..], '.');
    }
  }

  /** A version is three numbers with dots between. */
  lemma VersionMeans(v: string)
    ensures IsVersion(v) <==> exists a, b, c ::
              && a != "" && b != "" && c != "" && AllDigits(a) && AllDigits(b) && AllDigits(c) && v == Dotted(a, b, c)
  {
    if IsVersion(v) {
      var parts := Split(v, '.');
      ThreeParts(v);
      assert v == Dotted(parts[0], parts[1], parts[2]);
    }
    hide Split;
    if a, b, c :| && a != "" && b != "" && c != "" && AllDigits(a) && AllDigits(b) && AllDigits(c) && v == Dotted(a, b, c) {
      KeyOfDotted(a, b, c);
    }
  }

  lemma ThreeParts(v: string)
    requires |Split(v, '.')| == 3
    ensures v == Dotted(Split(v, '.')[0], Split(v, '.')[1], Split(v, '.')[2])
  {
    hide Split;
    SplitJoins(v);
    var rest := v[IndexOf(v, '.') + 1..];
    SplitJoins(rest);
    SplitJoins(rest[IndexOf(rest, '.') + 1..]);
    var parts := Split(v, '.');
    assert rest == parts[1] + "." + parts[2];
    Assoc(parts[0] + ".", parts[1], "." + parts[2]);
    Assoc(parts[0] + "." + parts[1], ".", parts[2]);
    Assoc(parts[1], ".", parts[2]);
  }

  lemma {:induction false} KeyOfDotted(a: string, b: string, c: string)
    requires a != "" && b != "" && c != "" && AllDigits(a) && AllDigits(b) && AllDigits(c)
    ensures IsVersion(Dotted(a, b, c)) && VKeyOf(Dotted(a, b, c)) == Some([ToNat(a), ToNat(b), ToNat(c)])
  {
    NoDots(a);
    NoDots(b);
    NoDots(c);
    hide Split, ToNat, Dotted;
    DottedParts(a, b, c);
    ToNatsThree(a, b, c);
    var parts := [a, b, c];
    hide ToNats, AllDigits;
    assert forall i :: 0 <= i < 3 ==> parts[i] != "" && AllDigits(parts[i]);
  }

  lemma {:induction false} ToNatsThree(a: string, b: string, c: string)
    requires AllDigits(a) && AllDigits(b) && AllDigits(c)
    ensures ToNats([a, b, c]) == [ToNat(a), ToNat(b), ToNat(c)]
  {
    hide ToNat, AllDigits;
    assert [a, b, c][1..] == [b, c] && [b, c][1..] == [c] && [c][1..] == [];
    assert ToNats([c]) == [ToNat(c)];
    assert ToNats([b, c]) == [ToNat(b), ToNat(c)];
  }

  /** The key of a written version is its three numbers. */
  lemma {:induction false} KeyMeans(a: nat, b: nat, c: nat)
    ensures var v := Dotted(Dec(a), Dec(b), Dec(c)); IsVersion(v) && VKeyOf(v) == Some([a, b, c])
  {
    ToNatOfDec(a);
    ToNatOfDec(b);
    ToNatOfDec(c);
    KeyOfDotted(Dec(a), Dec(b), Dec(c));
  }

  /** (a, b, c) comes after (d, e, f). */
  predicate After(a: nat, b: nat, c: nat, d: nat, e: nat, f: nat) {
    a > d || (a == d && b > e) || (a == d && b == e && c > f)
  }

  lemma {:induction false} LexThree(a: nat, b: nat, c: nat, d: nat, e: nat, f: nat)
    ensures LexLeq([a, b, c], [d, e, f]) <==> !After(a, b, c, d, e, f)
  {
    assert [a, b, c][1..] == [b, c] && [d, e, f][1..] == [e, f];
    assert [b, c][1..] == [c] && [e, f][1..] == [f] && [c][1..] == [];
    assert LexLeq([], [f][1..]);
    assert LexLeq([c], [f]) <==> c <= f;
    assert LexLeq([b, c], [e, f]) <==> b < e || (b == e && c <= f);
  }

  /** One version is above another exactly when its numbers come after. */
  lemma {:induction false} KeyAboveMeans(a: nat, b: nat, c: nat, d: nat, e: nat, f: nat)
    ensures KeyAbove(Dotted(Dec(a), Dec(b), Dec(c)), Dotted(Dec(d), Dec(e), Dec(f)))
       <==> a > d || (a == d && b > e) || (a == d && b == e && c > f)
  {
    hide VKeyOf, Dec, LexLeq, Dotted, IsVersion, KeyAbove;
    KeyMeans(a, b, c);
    KeyMeans(d, e, f);
    KeyAboveOf(Dotted(Dec(a), Dec(b), Dec(c)), Dotted(Dec(d), Dec(e), Dec(f)), a, b, c, d, e, f);
  }

  lemma KeyAboveOf(v: string, w: string, a: nat, b: nat, c: nat, d: nat, e: nat, f: nat)
    requires VKeyOf(v) == Some([a, b, c]) && VKeyOf(w) == Some([d, e, f])
    ensures KeyAbove(v, w) <==> After(a, b, c, d, e, f)
  {
    hide VKeyOf, LexLeq;
    LexThree(a, b, c, d, e, f);
  }

  // ---- dates -----------------------------------------------------------------------------------------------

  function DateText(y: nat, m: nat, d: nat): string {
    Padded(y, 4) + "-" + Padded(m, 2) + "-" + Padded(d, 2)
  }

  lemma {:induction false} DateParts(y: nat, m: nat, d: nat)
    requires y < 10000 && m < 100 && d < 100
    ensures var s := DateText(y, m, d);
            && IsDateShape(s) && s[..4] == Padded(y, 4) && s[5..7] == Padded(m, 2) && s[8..] == Padded(d, 2)
            && ToNat(s[..4]) == y && ToNat(s[5..7]) == m && ToNat(s[8..]) == d
  {
    hide Padded, Power, ToNat, AllDigits;
    Powers();
    ToNatOfPadded(y, 4);
    ToNatOfPadded(m, 2);
    ToNatOfPadded(d, 2);
    Dashes(Padded(y, 4), Padded(m, 2), Padded(d, 2));
  }

  lemma Dashes(y: string, m: string, d: string)
    requires |y| == 4 && |m| == 2 && |d| == 2
    ensures var s := y + "-" + m + "-" + d;
            |s| == 10 && s[4] == '-' && s[7] == '-' && s[..4] == y && s[5..7] == m && s[8..] == d
  {
  }

  lemma Powers()
    ensures Power(2) == 100 && Power(4) == 10000
  {
  }

  /** Every text of the shape of a date is a written date. */
  lemma {:induction false} DateShapeMeans(s: string)
    ensures IsDateShape(s) <==> exists y, m, d :: 0 <= y < 10000 && 0 <= m < 100 && 0 <= d < 100 && s == DateText(y, m, d)
  {
    hide *;
    if IsDateShape(s) {
      WrittenDate(s);
    }
    if y, m, d :| 0 <= y < 10000 && 0 <= m < 100 && 0 <= d < 100 && s == DateText(y, m, d) {
      DateParts(y, m, d);
    }
  }

  lemma {:induction false} WrittenDate(s: string)
    requires IsDateShape(s)
    ensures ToNat(s[..4]) < 10000 && ToNat(s[5..7]) < 100 && ToNat(s[8..]) < 100
    ensures s == DateText(ToNat(s[..4]), ToNat(s[5..7]), ToNat(s[8..]))
  {
    hide Padded, Power, ToNat, AllDigits;
    Powers();
    PaddedOfToNat(s[..4]);
    PaddedOfToNat(s[5..7]);
    PaddedOfToNat(s[8..]);
    assert s == s[..4] + "-" + s[5..7] + "-" + s[8..];
  }

  /** And it is a date exactly when the calendar has that day. */
  lemma {:induction false} DateMeans(y: nat, m: nat, d: nat)
    requires y < 10000 && m < 100 && d < 100
    ensures IsDate(DateText(y, m, d)) <==> y >= 1 && 1 <= m <= 12 && 1 <= d <= Calendar.DaysIn(y, m)
  {
    DateParts(y, m, d);
    hide DateText, ToNat;
  }

  lemma {:induction false} StrLessParts(a: string, x: string, b: string, y: string)
    requires |a| == |b|
    ensures StrLess(a + x, b + y) <==> StrLess(a, b) || (a == b && StrLess(x, y))
  {
    if a == "" {
      assert a + x == x && b + y == y;
    } else {
      assert (a + x)[1..] == a[1..] + x && (b + y)[1..] == b[1..] + y;
      StrLessParts(a[1..], x, b[1..], y);
      assert a == [a[0]] + a[1..] && b == [b[0]] + b[1..];
    }
  }

  lemma {:induction false} StrLessDigits(a: string, b: string)
    requires |a| == |b| && AllDigits(a) && AllDigits(b)
    ensures StrLess(a, b) <==> ToNat(a) < ToNat(b)
    ensures a == b <==> ToNat(a) == ToNat(b)
  {
    if a != "" {
      var a', b', x, y := a[..|a| - 1], b[..|b| - 1], a[|a| - 1], b[|b| - 1];
      StrLessDigits(a', b');
      StrLessParts(a', [x], b', [y]);
      assert a == a' + [x] && b == b' + [y];
      assert StrLess([x], [y]) <==> x < y;
      ToNatSnoc(a', x);
      ToNatSnoc(b', y);
      hide ToNat, StrLess;
    }
  }

  /** Dates compare as texts the way the days do. */
  lemma {:induction false} DateOrderMeans(y: nat, m: nat, d: nat, y': nat, m': nat, d': nat)
    requires y < 10000 && m < 100 && d < 100 && y' < 10000 && m' < 100 && d' < 100
    ensures StrLess(DateText(y, m, d), DateText(y', m', d'))
       <==> y < y' || (y == y' && m < m') || (y == y' && m == m' && d < d')
  {
    hide Padded, Power, ToNat, StrLess, DateText;
    Powers();
    PaddedOrder(y, y', 4);
    PaddedOrder(m, m', 2);
    PaddedOrder(d, d', 2);
    DashedOrder(Padded(y, 4), Padded(m, 2) + "-" + Padded(d, 2), Padded(y', 4), Padded(m', 2) + "-" + Padded(d', 2));
    DashedOrder(Padded(m, 2), Padded(d, 2), Padded(m', 2), Padded(d', 2));
    DateSplit(y, m, d);
    DateSplit(y', m', d');
  }

  lemma {:induction false} DateSplit(y: nat, m: nat, d: nat)
    ensures DateText(y, m, d) == Padded(y, 4) + "-" + (Padded(m, 2) + "-" + Padded(d, 2))
  {
    hide Padded;
  }

  lemma {:induction false} PaddedOrder(n: nat, k: nat, width: nat)
    ensures n < Power(width) && k < Power(width) ==>
              && |Padded(n, width)| == |Padded(k, width)|
              && (StrLess(Padded(n, width), Padded(k, width)) <==> n < k) && (Padded(n, width) == Padded(k, width) <==> n == k)
  {
    if n < Power(width) && k < Power(width) {
      ToNatOfPadded(n, width);
      ToNatOfPadded(k, width);
      StrLessDigits(Padded(n, width), Padded(k, width));
    }
  }

  lemma DashedOrder(a: string, x: string, b: string, y: string)
    requires |a| == |b|
    ensures StrLess(a + "-" + x, b + "-" + y) <==> StrLess(a, b) || (a == b && StrLess(x, y))
  {
    StrLessParts("-", x, "-", y);
    StrLessParts(a, "-" + x, b, "-" + y);
    Assoc(a, "-", x);
    Assoc(b, "-", y);
    assert !StrLess("-", "-");
    hide StrLess;
  }

  /** A release is newer than the one below it: its numbers come after, and its day is not earlier. */
  lemma {:induction false} NewerThanMeans(
      a: nat, b: nat, c: nat, y: nat, m: nat, d: nat, ss: seq<Section>,
      a': nat, b': nat, c': nat, y': nat, m': nat, d': nat, ss': seq<Section>)
    requires y < 10000 && m < 100 && d < 100 && y' < 10000 && m' < 100 && d' < 100
    ensures IsVersion(Dotted(Dec(a), Dec(b), Dec(c))) && IsVersion(Dotted(Dec(a'), Dec(b'), Dec(c')))
    ensures NewerThan(Release(Dotted(Dec(a), Dec(b), Dec(c)), Some(DateText(y, m, d)), ss),
                      Release(Dotted(Dec(a'), Dec(b'), Dec(c')), Some(DateText(y', m', d')), ss'))
       <==> && (a > a' || (a == a' && b > b') || (a == a' && b == b' && c > c'))
            && (y > y' || (y == y' && m > m') || (y == y' && m == m' && d >= d'))
  {
    hide VKeyOf, Dec, Dotted, LexLeq, StrLess, DateText, IsVersion, NewerThan;
    KeyMeans(a, b, c);
    KeyMeans(a', b', c');
    DateOrderMeans(y, m, d, y', m', d');
    NewerThanOf(Dotted(Dec(a), Dec(b), Dec(c)), DateText(y, m, d), ss, Dotted(Dec(a'), Dec(b'), Dec(c')), DateText(y', m', d'), ss',
                a, b, c, a', b', c');
  }

  lemma NewerThanOf(
      v: string, day: string, ss: seq<Section>, v': string, day': string, ss': seq<Section>,
      a: nat, b: nat, c: nat, a': nat, b': nat, c': nat)
    requires IsVersion(v) && IsVersion(v') && VKeyOf(v) == Some([a, b, c]) && VKeyOf(v') == Some([a', b', c'])
    ensures NewerThan(Release(v, Some(day), ss), Release(v', Some(day'), ss'))
       <==> After(a, b, c, a', b', c') && !StrLess(day, day')
  {
    hide VKeyOf, LexLeq, StrLess, IsVersion;
    LexThree(a, b, c, a', b', c');
  }
}
