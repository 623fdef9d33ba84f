/** Strings as changelog.py uses them: lines, white space, splitting, decimal numbers. */
module Text {

  /** Index of the first `c`, or the length when there is none. */
  function IndexOf(s: string, c: char): (i: nat)
    ensures i <= |s|
    ensures forall k :: 0 <= k < i ==> s[k] != c
    ensures i < |s| ==> s[i] == c
  {
    if s == "" || s[0] == c then 0 else 1 + IndexOf(s[1..], c)
  }

  lemma IndexOfAt(s: string, c: char, t: string)
    requires c !in s
    ensures IndexOf(s + [c] + t, c) == |s|
    ensures IndexOf(s, c) == |s|
  {
    var u := s + [c] + t;
    assert u[|s|] == c;
    assert forall k :: 0 <= k < |s| ==> u[k] == s[k] && s[k] in s;
  }

  lemma Assoc<T>(a: seq<T>, b: seq<T>, c: seq<T>)
    ensures a + b + c == a + (b + c)
  {
  }

  // ---- lines ---------------------------------------------------------------

  predicate OneLine(s: string) {
    '\n' !in s
  }

  predicate AllOneLine(ls: seq<string>) {
    forall i :: 0 <= i < |ls| ==> OneLine(ls[i])
  }

  /** The lines of `t` that end in a line feed. */
  function FullLines(t: string): (ls: seq<string>)
    ensures AllOneLine(ls)
    decreases |t|
  {
    var i := IndexOf(t, '\n');
    if i == |t| then [] else [t[..i]] + FullLines(t[i + 1..])
  }

  /** What follows the last line feed. */
  function Remainder(t: string): (s: string)
    ensures OneLine(s)
    decreases |t|
  {
    var i := IndexOf(t, '\n');
    if i == |t| then t else Remainder(t[i + 1..])
  }

  /** `str.splitlines()`, with the line feed as the only line break. */
  function SplitLines(t: string): (ls: seq<string>)
    ensures AllOneLine(ls)
  {
    FullLines(t) + if Remainder(t) == "" then [] else [Remainder(t)]
  }

  /** Every line followed by a line feed. */
  function Unlines(ls: seq<string>): string {
    if ls == [] then "" else ls[0] + "\n" + Unlines(ls[1..])
  }

  lemma UnlinesCons(l: string, ls: seq<string>)
    ensures Unlines([l] + ls) == l + "\n" + Unlines(ls)
  {
  }

  lemma {:induction false} UnlinesAppend(a: seq<string>, b: seq<string>)
    ensures Unlines(a + b) == Unlines(a) + Unlines(b)
  {
    if a == [] {
      assert a + b == b;
    } else {
      assert (a + b)[0] == a[0] && (a + b)[1..] == a[1..] + b;
      UnlinesAppend(a[1..], b);
    }
  }

  lemma FullLinesCons(l: string, t: string)
    requires OneLine(l)
    ensures FullLines(l + "\n" + t) == [l] + FullLines(t)
    ensures Remainder(l + "\n" + t) == Remainder(t)
  {
    IndexOfAt(l, '\n', t);
    var u := l + "\n" + t;
    assert u[..|l|] == l && u[|l| + 1..] == t;
  }

  lemma SplitCons(l: string, t: string)
    requires OneLine(l)
    ensures SplitLines(l + "\n" + t) == [l] + SplitLines(t)
  {
    FullLinesCons(l, t);
    Assoc([l], FullLines(t), if Remainder(t) == "" then [] else [Remainder(t)]);
  }

  /** Splitting undoes terminating. */
  lemma {:induction false} SplitUnlines(ls: seq<string>, t: string)
    requires AllOneLine(ls)
    ensures FullLines(Unlines(ls) + t) == ls + FullLines(t)
    ensures Remainder(Unlines(ls) + t) == Remainder(t)
    ensures SplitLines(Unlines(ls) + t) == ls + SplitLines(t)
    decreases |ls|
  {
    if ls == [] {
      assert Unlines(ls) + t == t;
    } else {
      SplitUnlines(ls[1..], t);
      var rest := Unlines(ls[1..]) + t;
      FullLinesCons(ls[0], rest);
      Assoc(ls[0] + "\n", Unlines(ls[1..]), t);
      Assoc([ls[0]], ls[1..], FullLines(t));
      Assoc(ls, FullLines(t), if Remainder(t) == "" then [] else [Remainder(t)]);
      assert [ls[0]] + ls[1..] == ls;
    }
  }

  lemma SplitUnlinesOnly(ls: seq<string>)
    requires AllOneLine(ls)
    ensures SplitLines(Unlines(ls)) == ls
  {
    SplitUnlines(ls, "");
    assert Unlines(ls) + "" == Unlines(ls);
  }

  /** Terminating undoes splitting. */
  lemma {:induction false} Recompose(t: string)
    ensures t == Unlines(FullLines(t)) + Remainder(t)
    decreases |t|
  {
    var i := IndexOf(t, '\n');
    if i < |t| {
      var rest := t[i + 1..];
      Recompose(rest);
      Assoc(t[..i] + "\n", Unlines(FullLines(rest)), Remainder(rest));
      UnlinesCons(t[..i], FullLines(rest));
      hide Unlines;
      CutAt(t, i);
    }
  }

  lemma CutAt(t: string, i: nat)
    requires i < |t| && t[i] == '\n'
    ensures t == t[..i] + "\n" + t[i + 1..]
  {
  }

  lemma SplitOneLine(s: string)
    requires OneLine(s)
    ensures FullLines(s) == [] && Remainder(s) == s
    ensures SplitLines(s) == if s == "" then [] else [s]
  {
  }

  /** `str.rstrip("\n")`. */
  function RStrip(t: string): (s: string)
    ensures s == "" || s[|s| - 1] != '\n'
  {
    if t != "" && t[|t| - 1] == '\n' then RStrip(t[..|t| - 1]) else t
  }

  // ---- white space ---------------------------------------------------------

  /** `str.isspace()` of one character. */
  predicate IsSpace(c: char) {
    var n := c as int;
    || 0x09 <= n <= 0x0D || 0x1C <= n <= 0x20 || n == 0x85 || n == 0xA0 || n == 0x1680
    || 0x2000 <= n <= 0x200A || n == 0x2028 || n == 0x2029 || n == 0x202F || n == 0x205F
    || n == 0x3000
  }

  predicate IsBlank(s: string) {
    forall i :: 0 <= i < |s| ==> IsSpace(s[i])
  }

  predicate NoSpace(s: string) {
    forall i :: 0 <= i < |s| ==> !IsSpace(s[i])
  }

  // ---- pieces and numbers --------------------------------------------------

  /** `str.split(c)`. */
  function Split(s: string, c: char): (parts: seq<string>)
    ensures |parts| > 0
    ensures forall i :: 0 <= i < |parts| ==> c !in parts[i]
    decreases |s|
  {
    var i := IndexOf(s, c);
    if i == |s| then [s] else [s[..i]] + Split(s[i + 1..], c)
  }

  predicate IsDigit(c: char) {
    '0' <= c <= '9'
  }

  predicate AllDigits(s: string) {
    forall i :: 0 <= i < |s| ==> IsDigit(s[i])
  }

  function ToNat(s: string): nat
    requires AllDigits(s)
  {
    if s == "" then 0 else ToNat(s[..|s| - 1]) * 10 + (s[|s| - 1] as int - '0' as int)
  }

  predicate StartsWith(s: string, p: string) {
    |p| <= |s| && s[..|p|] == p
  }

  predicate EndsWith(s: string, suffix: string) {
    |s| >= |suffix| && s[|s| - |suffix|..] == suffix
  }

  lemma StartsWithAppend(p: string, s: string)
    ensures StartsWith(p + s, p) && (p + s)[|p|..] == s
  {
  }

  // ---- search --------------------------------------------------------------

  predicate OccursAt(t: string, p: string, i: nat) {
    i + |p| <= |t| && t[i..i + |p|] == p
  }

  /** Offset of the first occurrence of `p`, searched from `i` on; the length of `t` + 1 if none. */
  function FindFrom(t: string, p: string, i: nat): (r: nat)
    requires i <= |t| + 1
    ensures i <= r <= |t| + 1
    ensures r <= |t| ==> OccursAt(t, p, r)
    ensures forall k :: i <= k < r ==> !OccursAt(t, p, k)
    decreases |t| + 1 - i
  {
    if i > |t| || OccursAt(t, p, i) then i else FindFrom(t, p, i + 1)
  }

  /** `t.replace(p, q, 1)`. */
  function ReplaceFirst(t: string, p: string, q: string): string {
    var i := FindFrom(t, p, 0);
    if i > |t| then t else t[..i] + q + t[i + |p|..]
  }

  // ---- order ---------------------------------------------------------------

  /** Python's `a <= b` on tuples of numbers. */
  predicate LexLeq(a: seq<nat>, b: seq<nat>) {
    a == [] || (b != [] && (a[0] < b[0] || (a[0] == b[0] && LexLeq(a[1..], b[1..]))))
  }

  /** Python's `a < b` on strings. */
  predicate StrLess(a: string, b: string) {
    b != "" && (a == "" || a[0] < b[0] || (a[0] == b[0] && StrLess(a[1..], b[1..])))
  }

  lemma {:induction false} LexTotal(a: seq<nat>, b: seq<nat>)
    ensures LexLeq(a, b) || LexLeq(b, a)
    ensures LexLeq(a, b) && LexLeq(b, a) ==> a == b
  {
    if a != [] && b != [] && a[0] == b[0] {
      LexTotal(a[1..], b[1..]);
      assert a == [a[0]] + a[1..] && b == [b[0]] + b[1..];
    }
  }

  lemma {:induction false} LexTransitive(a: seq<nat>, b: seq<nat>, c: seq<nat>)
    requires LexLeq(a, b) && LexLeq(b, c)
    ensures LexLeq(a, c)
  {
    if a != [] && a[0] == b[0] == c[0] {
      LexTransitive(a[1..], b[1..], c[1..]);
    }
  }

  lemma {:induction false} StrLessNegTransitive(a: string, b: string, c: string)
    requires !StrLess(a, b) && !StrLess(b, c)
    ensures !StrLess(a, c)
  {
    if a != "" && b != "" && c != "" && a[0] == b[0] == c[0] {
      StrLessNegTransitive(a[1..], b[1..], c[1..]);
    }
  }
}
