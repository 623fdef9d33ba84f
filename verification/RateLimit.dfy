/**
 common/ratelimit.py: counters of fixed windows in a table that is swept of expired rows.
 A key stands for its own hash. A run is any number of interleaved calls, each reading the clock any time before
 its transaction; the log of all hits ever counted is never swept, and the results compare the table with it.
 */
module RateLimit {
  import opened Prelude

  /** Seconds since the epoch. */
  type Instant = nat

  datatype Key = Key(scope: string, ident: string, window: nat, index: nat)

  datatype Counter = Counter(count: nat, expiresAt: Instant)

  type Table = map<Key, Counter>

  /** `_window` */
  function WindowKey(scope: string, ident: string, window: nat, now: Instant): (k: Key)
    requires window > 0
    ensures k.scope == scope && k.ident == ident && k.window == window
    ensures k.index * window <= now < Expiry(k) && Expiry(k) == k.index * window + window
  {
    Key(scope, ident, window, now / window)
  }

  function Expiry(k: Key): Instant {
    (k.index + 1) * k.window
  }

  // ---- one call, in the three steps the database sees ------------------------------------

  datatype Answer = Allowed | Refused | Lost  // Lost: the row is gone, refresh_from_db raises

  datatype Stage = Counted(created: bool) | Swept | Answered(answer: Answer)

  /** `time` is the caller's clock reading, `at` the time of its transaction. */
  datatype Hit = Hit(key: Key, time: Instant, at: Instant, limit: nat, stage: Stage)

  datatype State = State(table: Table, clock: Instant, log: seq<Hit>)

  datatype Action =
    | Tick(to: Instant)
    | Count(scope: string, ident: string, window: nat, limit: nat, now: Instant)  // now: read earlier
    | Sweep(hit: nat)
    | Read(hit: nat)

  /** get_or_create, then add one: one transaction. */
  function Increment(table: Table, k: Key): Table {
    table[k := if k in table then table[k].(count := table[k].count + 1) else Counter(1, Expiry(k))]
  }

  /** Delete the rows that expired before `now`. */
  function WithoutExpired(table: Table, now: Instant): Table {
    map k | k in table && table[k].expiresAt >= now :: table[k]
  }

  function AnswerOf(table: Table, h: Hit): Answer {
    if h.key !in table then Lost else if table[h.key].count <= h.limit then Allowed else Refused
  }

  function CountAt(s: State, k: Key, now: Instant, limit: nat): State {
    s.(table := Increment(s.table, k), log := s.log + [Hit(k, now, s.clock, limit, Counted(k !in s.table))])
  }

  predicate Enabled(s: State, a: Action) {
    match a
    case Tick(to) => s.clock <= to
    case Count(_, _, window, _, now) => window > 0 && now <= s.clock
    case Sweep(i) => i < |s.log| && s.log[i].stage == Counted(true)
    case Read(i) => i < |s.log| && (s.log[i].stage == Swept || s.log[i].stage == Counted(false))
  }

  function Do(s: State, a: Action): State
    requires Enabled(s, a)
  {
    match a
    case Tick(to) => s.(clock := to)
    case Count(scope, ident, window, limit, now) => CountAt(s, WindowKey(scope, ident, window, now), now, limit)
    case Sweep(i) =>
      s.(table := WithoutExpired(s.table, s.log[i].time), log := s.log[i := s.log[i].(stage := Swept)])
    case Read(i) =>
      s.(log := s.log[i := s.log[i].(stage := Answered(AnswerOf(s.table, s.log[i])))])
  }

  const EMPTY := State(map[], 0, [])

  /** The state after any run; an action that cannot happen there stops it. */
  function Run(actions: seq<Action>): State {
    if actions == [] then EMPTY
    else
      var s := Run(actions[..|actions| - 1]);
      var a := actions[|actions| - 1];
      if Enabled(s, a) then Do(s, a) else s
  }

  // ---- counting in the log ------------------------------------------------------------------

  /** The hits of window `k` among the first `n`. */
  function HitsIn(log: seq<Hit>, k: Key, n: nat): (c: nat)
    requires n <= |log|
    ensures c <= n
  {
    if n == 0 then 0 else HitsIn(log, k, n - 1) + if log[n - 1].key == k then 1 else 0
  }

  function Hits(log: seq<Hit>, k: Key): nat {
    HitsIn(log, k, |log|)
  }

  lemma {:induction false} HitsInPrefix(log: seq<Hit>, log': seq<Hit>, k: Key, n: nat)
    requires n <= |log| && n <= |log'|
    requires forall i :: 0 <= i < n ==> log[i].key == log'[i].key
    ensures HitsIn(log, k, n) == HitsIn(log', k, n)
  {
    if n > 0 {
      HitsInPrefix(log, log', k, n - 1);
    }
  }

  lemma HitsAppend(log: seq<Hit>, h: Hit, k: Key)
    ensures Hits(log + [h], k) == Hits(log, k) + if h.key == k then 1 else 0
  {
    HitsInPrefix(log, log + [h], k, |log|);
  }

  lemma {:induction false} NoHits(log: seq<Hit>, k: Key, n: nat)
    requires n <= |log|
    ensures HitsIn(log, k, n) > 0 <==> exists i :: 0 <= i < n && log[i].key == k
  {
    if n > 0 {
      NoHits(log, k, n - 1);
    }
  }

  // ---- the table agrees with the log -----------------------------------------------------------

  /** No transaction on window `k` started after the window's end. */
  predicate OnTime(log: seq<Hit>, k: Key) {
    forall i :: 0 <= i < |log| && log[i].key == k ==> log[i].at <= Expiry(k)
  }

  /** Clock readings are no later than transactions, and rows expire with their windows. */
  predicate Ordered(s: State) {
    && (forall i :: 0 <= i < |s.log| ==> s.log[i].time <= s.log[i].at <= s.clock)
    && (forall k :: k in s.table ==> s.table[k].expiresAt == Expiry(k))
  }

  /** The row of `k` counts all its hits; with hits it lacks a row only once it is over. */
  predicate AgreesOn(s: State, k: Key) {
    OnTime(s.log, k) ==>
      && (k in s.table ==> s.table[k].count == Hits(s.log, k) > 0)
      && (k !in s.table && s.clock <= Expiry(k) ==> Hits(s.log, k) == 0)
  }

  lemma CountKeepsAgreement(s: State, k: Key, now: Instant, limit: nat, j: Key)
    requires Ordered(s) && AgreesOn(s, j) && now <= s.clock
    ensures Ordered(CountAt(s, k, now, limit)) && AgreesOn(CountAt(s, k, now, limit), j)
  {
    var s' := CountAt(s, k, now, limit);
    HitsAppend(s.log, s'.log[|s.log|], j);
    if OnTime(s'.log, j) {
      assert forall i :: 0 <= i < |s.log| ==> s'.log[i] == s.log[i];
      assert s'.log[|s.log|].key == k;
      assert OnTime(s.log, j);
    }
  }

  /** What the two transactions of a call do to the table: one more in its own row, and away with what has expired. */
  lemma TableSteps(s: State, a: Action)
    requires Enabled(s, a)
    ensures var t, t' := s.table, Do(s, a).table;
            && (a.Tick? || a.Read? ==> t' == t)
            && (a.Count? ==>
                 var k := WindowKey(a.scope, a.ident, a.window, a.now);
                 && t'.Keys == t.Keys + {k} && (forall j :: j in t && j != k ==> t'[j] == t[j])
                 && t'[k].count == (if k in t then t[k].count else 0) + 1
                 && t'[k].expiresAt == if k in t then t[k].expiresAt else Expiry(k))
            && (a.Sweep? ==>
                 forall j :: (j in t' <==> j in t && t[j].expiresAt >= s.log[a.hit].time) && (j in t' ==> t'[j] == t[j]))
    ensures a.Sweep? ==> s.log[a.hit].stage == Counted(true)
  {
  }

  /** Sweeping removes no window that is still running, whatever its scope or length. */
  lemma SweepSparesLiveWindows(s: State, now: Instant, k: Key)
    requires Ordered(s) && now <= s.clock && s.clock <= Expiry(k)
    ensures k in WithoutExpired(s.table, now) <==> k in s.table
    ensures k in s.table ==> WithoutExpired(s.table, now)[k] == s.table[k]
  {
  }

  lemma RelabelKeepsAgreement(s: State, i: nat, stage: Stage, k: Key)
    requires Ordered(s) && AgreesOn(s, k) && i < |s.log|
    ensures var s' := s.(log := s.log[i := s.log[i].(stage := stage)]); Ordered(s') && AgreesOn(s', k)
  {
    var log' := s.log[i := s.log[i].(stage := stage)];
    HitsInPrefix(s.log, log', k, |s.log|);
    if OnTime(log', k) {
      assert forall j :: 0 <= j < |s.log| ==> log'[j].key == s.log[j].key && log'[j].at == s.log[j].at;
    }
  }

  lemma StepKeepsAgreement(s: State, a: Action, k: Key)
    requires Ordered(s) && AgreesOn(s, k) && Enabled(s, a)
    ensures Ordered(Do(s, a)) && AgreesOn(Do(s, a), k)
  {
    if a.Count? {
      CountKeepsAgreement(s, WindowKey(a.scope, a.ident, a.window, a.now), a.now, a.limit, k);
    } else if a.Sweep? {
      RelabelKeepsAgreement(s.(table := WithoutExpired(s.table, s.log[a.hit].time)), a.hit, Swept, k);
    } else if a.Read? {
      RelabelKeepsAgreement(s, a.hit, Answered(AnswerOf(s.table, s.log[a.hit])), k);
    }
  }

  /** In every run, however late and interleaved its calls, a window all of whose transactions were on time. */
  lemma {:induction false} TableAgreesWithLog(actions: seq<Action>, k: Key)
    ensures Ordered(Run(actions)) && AgreesOn(Run(actions), k)
  {
    hide Do, Enabled;
    if actions != [] {
      var s, a := Run(actions[..|actions| - 1]), actions[|actions| - 1];
      TableAgreesWithLog(actions[..|actions| - 1], k);
      if Enabled(s, a) {
        StepKeepsAgreement(s, a, k);
      }
    }
  }

  /** `exceeded` */
  function Exceeded(table: Table, scope: string, ident: string, limit: nat, window: nat, now: Instant): bool
    requires window > 0
  {
    var k := WindowKey(scope, ident, window, now);
    (if k in table then table[k].count else 0) >= limit
  }

  /** After any run, read before the window's end, `exceeded` says whether the log holds `limit` of its hits. */
  lemma ExceededReadsTheLog(
      actions: seq<Action>, scope: string, ident: string, limit: nat, window: nat, now: Instant)
    requires window > 0 && now <= Run(actions).clock <= Expiry(WindowKey(scope, ident, window, now))
    ensures var s := Run(actions);
            (Exceeded(s.table, scope, ident, limit, window, now)
             <==> Hits(s.log, WindowKey(scope, ident, window, now)) >= limit)
  {
    TableAgreesWithLog(actions, WindowKey(scope, ident, window, now));
  }

  // ---- calls whose row is gone ------------------------------------------------------------------------

  /** Some call read the clock after the end of window `k`. */
  predicate Outlived(log: seq<Hit>, k: Key) {
    exists j :: 0 <= j < |log| && log[j].time > Expiry(k)
  }

  predicate RowsGoLate(s: State) {
    forall i :: 0 <= i < |s.log| ==> s.log[i].key in s.table || Outlived(s.log, s.log[i].key)
  }

  lemma OutlivedStays(log: seq<Hit>, log': seq<Hit>, k: Key)
    requires Outlived(log, k) && |log| <= |log'| && forall i :: 0 <= i < |log| ==> log'[i].time == log[i].time
    ensures Outlived(log', k)
  {
    var j :| 0 <= j < |log| && log[j].time > Expiry(k);
    assert log'[j].time > Expiry(k);
  }

  lemma SweepKeepsRows(s: State, n: nat)
    requires Ordered(s) && RowsGoLate(s) && Enabled(s, Sweep(n))
    ensures RowsGoLate(Do(s, Sweep(n)))
  {
    hide Expiry;
    var s' := Do(s, Sweep(n));
    forall i | 0 <= i < |s'.log| ensures s'.log[i].key in s'.table || Outlived(s'.log, s'.log[i].key) {
      var k := s.log[i].key;
      assert s'.log[i].key == k && s'.log[n].time == s.log[n].time;
      if k !in s.table {
        OutlivedStays(s.log, s'.log, k);
      } else if k !in s'.table {
        assert s'.log[n].time > Expiry(k);
      }
    }
  }

  /** Rows that stay keep the calls they count. */
  lemma GrowthKeepsRows(s: State, s': State)
    requires RowsGoLate(s) && s.table.Keys <= s'.table.Keys && |s.log| <= |s'.log|
    requires forall i :: 0 <= i < |s.log| ==> s'.log[i].key == s.log[i].key && s'.log[i].time == s.log[i].time
    requires forall i :: |s.log| <= i < |s'.log| ==> s'.log[i].key in s'.table
    ensures RowsGoLate(s')
  {
    hide Expiry, Outlived;
    forall i | 0 <= i < |s'.log| ensures s'.log[i].key in s'.table || Outlived(s'.log, s'.log[i].key) {
      if i < |s.log| && s.log[i].key !in s.table {
        OutlivedStays(s.log, s'.log, s.log[i].key);
      }
    }
  }

  lemma StepKeepsRows(s: State, a: Action)
    requires Ordered(s) && RowsGoLate(s) && Enabled(s, a)
    ensures RowsGoLate(Do(s, a))
  {
    if a.Sweep? {
      SweepKeepsRows(s, a.hit);
    } else {
      hide RowsGoLate, WindowKey;
      GrowthKeepsRows(s, Do(s, a));
    }
  }

  lemma {:induction false} RunKeepsRows(actions: seq<Action>)
    ensures RowsGoLate(Run(actions))
  {
    hide Do, Enabled;
    if actions != [] {
      var s, a := Run(actions[..|actions| - 1]), actions[|actions| - 1];
      RunKeepsRows(actions[..|actions| - 1]);
      if Enabled(s, a) {
        TableAgreesWithLog(actions[..|actions| - 1], Key("", "", 0, 0));
        StepKeepsRows(s, a);
      }
    }
  }

  /**
   After any run, `hit` finds no row to read only if some call has read a clock after the end of its window; so never
   when it reads its count by then.
   */
  lemma LostMeansLate(actions: seq<Action>, i: nat)
    requires Enabled(Run(actions), Read(i)) && Do(Run(actions), Read(i)).log[i].stage == Answered(Lost)
    ensures var s := Run(actions); Outlived(s.log, s.log[i].key) && s.clock > Expiry(s.log[i].key)
  {
    var s := Run(actions);
    RunKeepsRows(actions);
    TableAgreesWithLog(actions, s.log[i].key);
    hide Run;
  }

  const MINUTE := Key("scope", "caller", 60, 0)

  lemma RunSnoc(a: seq<Action>, b: Action)
    ensures Run(a + [b]) == if Enabled(Run(a), b) then Do(Run(a), b) else Run(a)
  {
    assert (a + [b])[..|a|] == a;
  }

  /** A call of the first minute that reads its count only after the sweep of a call of the next. */
  function LateRead(limit: nat): seq<Action> {
    [] + [Tick(59)] + [Count("scope", "caller", 60, limit, 59)] + [Sweep(0)]
    + [Tick(61)] + [Count("scope", "caller", 60, limit, 61)] + [Sweep(1)] + [Read(0)]
  }

  /** Past the window it can raise: a call that counted on time and reads two seconds later has no row. */
  lemma LateReadIsLost(limit: nat)
    ensures var log := Run(LateRead(limit)).log; |log| == 2 && log[0] == Hit(MINUTE, 59, 59, limit, Answered(Lost))
  {
    var count, next := Count("scope", "caller", 60, limit, 59), Count("scope", "caller", 60, limit, 61);
    RunSnoc([], Tick(59));
    RunSnoc([] + [Tick(59)], count);
    RunSnoc([] + [Tick(59)] + [count], Sweep(0));
    var a := [] + [Tick(59)] + [count] + [Sweep(0)];
    assert Run(a).clock == 59 && |Run(a).log| == 1 && Run(a).log[0] == Hit(MINUTE, 59, 59, limit, Swept);
    RunSnoc(a, Tick(61));
    RunSnoc(a + [Tick(61)], next);
    RunSnoc(a + [Tick(61)] + [next], Sweep(1));
    var b := a + [Tick(61)] + [next] + [Sweep(1)];
    assert |Run(b).log| == 2 && Run(b).log[0] == Hit(MINUTE, 59, 59, limit, Swept) && MINUTE !in Run(b).table;
    RunSnoc(b, Read(0));
    hide Run;
  }

  // ---- how many calls are allowed -----------------------------------------------------------------

  /** An allowed hit of `k` is at most the limit-th of its window. */
  predicate RankBounded(log: seq<Hit>, k: Key) {
    forall i :: 0 <= i < |log| && log[i].key == k && log[i].stage == Answered(Allowed) ==>
      HitsIn(log, k, i + 1) <= log[i].limit
  }

  lemma {:induction false} HitsInMonotone(log: seq<Hit>, k: Key, n: nat, m: nat)
    requires n <= m <= |log|
    ensures HitsIn(log, k, n) <= HitsIn(log, k, m)
    decreases m
  {
    if n < m {
      HitsInMonotone(log, k, n, m - 1);
    }
  }

  lemma StepKeepsRank(s: State, a: Action, k: Key)
    requires Ordered(s) && AgreesOn(s, k) && RankBounded(s.log, k) && Enabled(s, a) && OnTime(s.log, k)
    ensures RankBounded(Do(s, a).log, k)
  {
    var log' := Do(s, a).log;
    forall i | 0 <= i < |log'| && log'[i].key == k && log'[i].stage == Answered(Allowed)
      ensures HitsIn(log', k, i + 1) <= log'[i].limit
    {
      HitsInPrefix(s.log, log', k, i + 1);
      HitsInMonotone(s.log, k, i + 1, |s.log|);
    }
  }

  lemma OnTimeBefore(s: State, a: Action, k: Key)
    requires Enabled(s, a) && OnTime(Do(s, a).log, k)
    ensures OnTime(s.log, k)
  {
    var log' := Do(s, a).log;
    assert forall i :: 0 <= i < |s.log| ==> log'[i].key == s.log[i].key && log'[i].at == s.log[i].at;
  }

  lemma {:induction false} RunKeepsRank(actions: seq<Action>, k: Key)
    requires OnTime(Run(actions).log, k)
    ensures RankBounded(Run(actions).log, k)
  {
    hide Do, Enabled;
    if actions != [] {
      var front, a := actions[..|actions| - 1], actions[|actions| - 1];
      if Enabled(Run(front), a) {
        OnTimeBefore(Run(front), a, k);
        RunKeepsRank(front, k);
        TableAgreesWithLog(front, k);
        StepKeepsRank(Run(front), a, k);
      } else {
        RunKeepsRank(front, k);
      }
    }
  }

  /** Calls on window `k` with a limit up to `limit` that returned True, among the first `n`. */
  function AllowedIn(log: seq<Hit>, k: Key, limit: nat, n: nat): nat
    requires n <= |log|
  {
    if n == 0 then 0
    else
      var h := log[n - 1];
      AllowedIn(log, k, limit, n - 1)
      + if h.key == k && h.limit <= limit && h.stage == Answered(Allowed) then 1 else 0
  }

  lemma {:induction false} AllowedBelowRank(log: seq<Hit>, k: Key, limit: nat, n: nat)
    requires n <= |log| && RankBounded(log, k)
    ensures AllowedIn(log, k, limit, n) <= HitsIn(log, k, n)
    ensures AllowedIn(log, k, limit, n) <= limit
  {
    if n > 0 {
      AllowedBelowRank(log, k, limit, n - 1);
    }
  }

  /**
   In every interleaving, with clocks read however long before: at most `limit` calls on a window return True,
   as long as no transaction on that window starts after its end. Nothing is asked of other windows.
   */
  lemma AtMostLimitPerWindow(actions: seq<Action>, k: Key, limit: nat)
    requires OnTime(Run(actions).log, k)
    ensures var log := Run(actions).log; AllowedIn(log, k, limit, |log|) <= limit
  {
    RunKeepsRank(actions, k);
    var log := Run(actions).log;
    AllowedBelowRank(log, k, limit, |log|);
  }

  /** Every call reads the clock when its transaction starts. */
  predicate Prompt(log: seq<Hit>) {
    forall i :: 0 <= i < |log| ==> log[i].at == log[i].time
  }

  /** Then all windows are on time, and all are bounded. */
  lemma AtMostLimitWhenPrompt(actions: seq<Action>, k: Key, limit: nat)
    requires Prompt(Run(actions).log)
    ensures var log := Run(actions).log; OnTime(log, k) && AllowedIn(log, k, limit, |log|) <= limit
  {
    RunInOwnWindow(actions);
    AtMostLimitPerWindow(actions, k, limit);
  }

  /** Calls of one caller counted in the `window` seconds from `from` on that returned True. */
  function AllowedSince(log: seq<Hit>, scope: string, ident: string, window: nat, limit: nat, from: Instant, n: nat): nat
    requires n <= |log|
  {
    if n == 0 then 0
    else
      var h := log[n - 1];
      AllowedSince(log, scope, ident, window, limit, from, n - 1)
      + if h.key == Key(scope, ident, window, h.key.index) && from <= h.time < from + window
           && h.limit <= limit && h.stage == Answered(Allowed) then 1 else 0
  }

  predicate InOwnWindow(log: seq<Hit>) {
    forall i :: 0 <= i < |log| ==>
      && log[i].key.window > 0 && log[i].key.index == log[i].time / log[i].key.window
      && log[i].time < Expiry(log[i].key)
  }

  lemma {:induction false} RunInOwnWindow(actions: seq<Action>)
    ensures InOwnWindow(Run(actions).log)
  {
    if actions != [] {
      RunInOwnWindow(actions[..|actions| - 1]);
    }
  }

  lemma {:induction false} Multiples(a: nat, b: nat, w: nat)
    requires a < b
    ensures a * w + w <= b * w
    decreases b
  {
    assert b * w == (b - 1) * w + w;
    if a < b - 1 {
      Multiples(a, b - 1, w);
    }
  }

  lemma QuotientIs(x: nat, q: nat, w: nat)
    requires w > 0 && q * w <= x < q * w + w
    ensures x / w == q
  {
    var p := x / w;
    assert p * w <= x < p * w + w;
    if p < q {
      Multiples(p, q, w);
    } else if q < p {
      Multiples(q, p, w);
    }
  }

  lemma TwoWindows(from: Instant, time: Instant, window: nat)
    requires window > 0 && from <= time < from + window
    ensures time / window == from / window || time / window == from / window + 1
  {
    var q, r := from / window, from % window;
    assert from == q * window + r;
    assert (q + 1) * window == q * window + window;
    QuotientIs(time, if time < q * window + window then q else q + 1, window);
  }

  lemma {:induction false} SinceSplits(
      log: seq<Hit>, scope: string, ident: string, window: nat, limit: nat, from: Instant, n: nat)
    requires n <= |log| && window > 0 && InOwnWindow(log)
    ensures var i := from / window;
            (AllowedSince(log, scope, ident, window, limit, from, n)
             <= AllowedIn(log, Key(scope, ident, window, i), limit, n)
                + AllowedIn(log, Key(scope, ident, window, i + 1), limit, n))
  {
    if n > 0 {
      SinceSplits(log, scope, ident, window, limit, from, n - 1);
      var h := log[n - 1];
      if h.key == Key(scope, ident, window, h.key.index) && from <= h.time < from + window {
        TwoWindows(from, h.time, window);
      }
    }
  }

  /** So no interval of one window length lets more than twice the limit through its two windows, both on time. */
  lemma AtMostTwiceLimit(
      actions: seq<Action>, scope: string, ident: string, window: nat, limit: nat, from: Instant)
    requires window > 0
    requires OnTime(Run(actions).log, Key(scope, ident, window, from / window))
    requires OnTime(Run(actions).log, Key(scope, ident, window, from / window + 1))
    ensures var log := Run(actions).log;
            AllowedSince(log, scope, ident, window, limit, from, |log|) <= 2 * limit
  {
    hide Run, AllowedIn, AllowedSince, OnTime;
    var log := Run(actions).log;
    RunInOwnWindow(actions);
    SinceSplits(log, scope, ident, window, limit, from, |log|);
    AtMostLimitPerWindow(actions, Key(scope, ident, window, from / window), limit);
    AtMostLimitPerWindow(actions, Key(scope, ident, window, from / window + 1), limit);
  }

  // ---- a clock read long before the transaction ---------------------------------------------------

  function AllowedHit(limit: nat): Hit {
    Hit(MINUTE, 59, 59, limit, Answered(Allowed))
  }

  /** `n` calls of the first minute, all allowed, at second 59. */
  function Full(n: nat, limit: nat): State {
    State(map[MINUTE := Counter(n, 60)], 59, seq(n, _ => AllowedHit(limit)))
  }

  lemma OneMoreCall(n: nat, limit: nat, a: seq<Action>)
    requires 1 <= n < limit && Run(a) == Full(n, limit)
    ensures Run(a + [Count("scope", "caller", 60, limit, 59)] + [Read(n)]) == Full(n + 1, limit)
  {
    var count := Count("scope", "caller", 60, limit, 59);
    RunSnoc(a, count);
    RunSnoc(a + [count], Read(n));
    hide Run;
    assert Run(a + [count] + [Read(n)]).log == Full(n + 1, limit).log;
  }

  function JustCounted(limit: nat): State {
    State(map[MINUTE := Counter(1, 60)], 59, [Hit(MINUTE, 59, 59, limit, Counted(true))])
  }

  lemma FirstCount(limit: nat)
    ensures var count := Count("scope", "caller", 60, limit, 59);
            Run([] + [Tick(59)] + [count]) == JustCounted(limit)
  {
    var count := Count("scope", "caller", 60, limit, 59);
    var s := State(map[], 59, []);
    RunSnoc([], Tick(59));
    assert Run([]) == EMPTY && Run([] + [Tick(59)]) == s;
    FirstMinute();
    hide Run, WindowKey, Expiry;
    RunSnoc([] + [Tick(59)], count);
    assert Do(s, count) == CountAt(s, MINUTE, 59, limit);
    assert Increment(map[], MINUTE) == map[MINUTE := Counter(1, 60)];
  }

  lemma FirstAnswer(limit: nat)
    requires limit >= 1
    ensures var s := JustCounted(limit); Enabled(s, Sweep(0)) && Enabled(Do(s, Sweep(0)), Read(0))
    ensures Do(Do(JustCounted(limit), Sweep(0)), Read(0)) == Full(1, limit)
  {
    var s := JustCounted(limit);
    assert WithoutExpired(s.table, 59) == s.table;
    assert Do(s, Sweep(0)).log == [Hit(MINUTE, 59, 59, limit, Swept)];
    assert Do(Do(s, Sweep(0)), Read(0)).log == [AllowedHit(limit)];
    assert Full(1, limit).log == [AllowedHit(limit)];
  }

  lemma FirstCall(limit: nat) returns (a: seq<Action>)
    requires limit >= 1
    ensures Run(a) == Full(1, limit)
  {
    hide Run, Do, Enabled;
    var b := [] + [Tick(59)] + [Count("scope", "caller", 60, limit, 59)];
    FirstCount(limit);
    FirstAnswer(limit);
    RunSnoc(b, Sweep(0));
    RunSnoc(b + [Sweep(0)], Read(0));
    a := b + [Sweep(0)] + [Read(0)];
  }

  lemma FirstMinute()
    ensures WindowKey("scope", "caller", 60, 59) == MINUTE && Expiry(MINUTE) == 60
  {
  }

  lemma {:induction false} FillWindow(n: nat, limit: nat) returns (a: seq<Action>)
    requires 1 <= n <= limit
    ensures Run(a) == Full(n, limit)
  {
    if n == 1 {
      a := FirstCall(limit);
    } else {
      var b := FillWindow(n - 1, limit);
      OneMoreCall(n - 1, limit, b);
      a := b + [Count("scope", "caller", 60, limit, 59)] + [Read(n - 1)];
    }
  }

  lemma {:induction false} AllAllowed(log: seq<Hit>, n: nat, limit: nat)
    requires n <= |log| && forall i :: 0 <= i < n ==> log[i] == AllowedHit(limit)
    ensures AllowedIn(log, MINUTE, limit, n) == n
  {
    if n > 0 {
      AllAllowed(log, n - 1, limit);
    }
  }

  /** The full window after another caller's sweep in the next minute and one late call. */
  lemma LateCall(a: seq<Action>, limit: nat) returns (b: seq<Action>)
    requires limit >= 1 && Run(a) == Full(limit, limit)
    ensures var log := Run(b).log;
            && |log| == limit + 2
            && (forall i :: 0 <= i < limit ==> log[i] == AllowedHit(limit))
            && log[limit].key != MINUTE
            && log[limit + 1] == Hit(MINUTE, 59, 61, limit, Answered(Allowed))
  {
    var other, late := Count("other", "caller", 60, limit, 61), Count("scope", "caller", 60, limit, 59);
    assert "other" != "scope" by {
      assert "other"[0] == 'o' && "scope"[0] == 's';
    }
    RunSnoc(a, Tick(61));
    RunSnoc(a + [Tick(61)], other);
    RunSnoc(a + [Tick(61)] + [other], Sweep(limit));
    var c := a + [Tick(61)] + [other] + [Sweep(limit)];
    assert Run(c).clock == 61 && MINUTE !in Run(c).table && |Run(c).log| == limit + 1;
    assert Run(c).log[..limit] == Full(limit, limit).log && Run(c).log[limit].key != MINUTE;
    RunSnoc(c, late);
    RunSnoc(c + [late], Sweep(limit + 1));
    RunSnoc(c + [late] + [Sweep(limit + 1)], Read(limit + 1));
    b := c + [late] + [Sweep(limit + 1)] + [Read(limit + 1)];
  }

  /** All transactions on the first minute but `late` are on time, and one call more than the limit returns True. */
  predicate BrokenBy(log: seq<Hit>, late: nat, limit: nat) {
    && late < |log| && log[late].key == MINUTE && log[late].at > Expiry(MINUTE)
    && (forall i :: 0 <= i < |log| && i != late && log[i].key == MINUTE ==> log[i].at <= Expiry(MINUTE))
    && AllowedIn(log, MINUTE, limit, |log|) == limit + 1
  }

  /** The condition cannot go: for every limit there is a run that a single late transaction breaks. */
  lemma OneLateCallBreaksTheLimit(limit: nat)
    requires limit >= 1
    ensures exists actions :: BrokenBy(Run(actions).log, limit + 1, limit)
  {
    hide Run, AllowedIn;
    var a := FillWindow(limit, limit);
    var b := LateCall(a, limit);
    var log := Run(b).log;
    AllAllowed(log, limit, limit);
    LateIsAllowed(log, limit);
  }

  lemma LateIsAllowed(log: seq<Hit>, limit: nat)
    requires |log| == limit + 2 && AllowedIn(log, MINUTE, limit, limit) == limit
    requires log[limit].key != MINUTE && log[limit + 1] == Hit(MINUTE, 59, 61, limit, Answered(Allowed))
    ensures AllowedIn(log, MINUTE, limit, |log|) == limit + 1
  {
    assert AllowedIn(log, MINUTE, limit, limit + 1) == limit;
  }

  // ---- the table as the code updates it -----------------------------------------------------------

  /** A table and log that only undisturbed calls have touched. */
  ghost predicate Steady(s: State) {
    && Ordered(s)
    && (forall k :: AgreesOn(s, k))
    && forall i :: 0 <= i < |s.log| ==> s.log[i].at < Expiry(s.log[i].key)
  }

  lemma SteadyIsOnTime(s: State, k: Key)
    requires Steady(s)
    ensures OnTime(s.log, k)
  {
  }

  lemma SteadyLater(s: State, now: Instant)
    requires Steady(s) && s.clock <= now
    ensures Steady(s.(clock := now))
  {
    hide Hits, OnTime;
    forall k ensures AgreesOn(s.(clock := now), k) {
      assert AgreesOn(s, k);
    }
  }

  lemma CountKeepsSteady(s: State, k: Key, limit: nat)
    requires Steady(s) && s.clock < Expiry(k)
    ensures var s' := CountAt(s, k, s.clock, limit); Steady(s') && s'.table[k].count == Hits(s'.log, k)
  {
    var s' := CountAt(s, k, s.clock, limit);
    forall j ensures Ordered(s') && AgreesOn(s', j) {
      CountKeepsAgreement(s, k, s.clock, limit, j);
    }
    hide AgreesOn;
    SteadyIsOnTime(s', k);
    assert s'.table[k].count == Hits(s'.log, k) by {
      CountKeepsAgreement(s, k, s.clock, limit, k);
      RowCounts(s', k);
    }
  }

  lemma RowCounts(s: State, k: Key)
    requires AgreesOn(s, k) && OnTime(s.log, k) && k in s.table
    ensures s.table[k].count == Hits(s.log, k)
  {
  }

  lemma SweepKeepsSteady(s: State)
    requires Steady(s)
    ensures Steady(s.(table := WithoutExpired(s.table, s.clock)))
  {
    hide Hits, OnTime;
    var s' := s.(table := WithoutExpired(s.table, s.clock));
    forall k ensures AgreesOn(s', k) {
      assert AgreesOn(s, k);
    }
  }

  lemma KeptBySweep(table: Table, now: Instant, k: Key)
    requires k in table && table[k].expiresAt >= now
    ensures k in WithoutExpired(table, now) && WithoutExpired(table, now)[k] == table[k]
  {
  }

  lemma LeftBySweep(table: Table, now: Instant)
    ensures forall j :: j in WithoutExpired(table, now) <==> j in table && table[j].expiresAt >= now
    ensures forall j :: j in WithoutExpired(table, now) ==> WithoutExpired(table, now)[j] == table[j]
  {
  }

  class Limiter {
    var rows: Table
    ghost var clock: Instant
    ghost var log: seq<Hit>

    ghost function Now(): State
      reads this
    {
      State(rows, clock, log)
    }

    ghost predicate Valid()
      reads this
    {
      Steady(Now())
    }

    constructor ()
      ensures Valid() && rows == map[] && log == [] && clock == 0
    {
      rows, clock, log := map[], 0, [];
    }

    /** `hit`, undisturbed: the answer is that of a log nobody ever swept. */
    method TakeHit(scope: string, ident: string, limit: nat, window: nat, now: Instant) returns (allowed: bool)
      requires Valid() && window > 0 && clock <= now
      modifies this
      ensures Valid() && clock == now
      ensures |log| == old(|log|) + 1 && log[..|log| - 1] == old(log)
      ensures log[|log| - 1].key == WindowKey(scope, ident, window, now) && log[|log| - 1].time == now
      ensures allowed <==> Hits(log, WindowKey(scope, ident, window, now)) <= limit
      ensures var k := WindowKey(scope, ident, window, now);
              && k in rows
              && (k in old(rows) ==> rows.Keys == old(rows).Keys)
              && (k !in old(rows) ==> forall j :: j in rows <==> j == k || (j in old(rows) && old(rows)[j].expiresAt >= now))
              && forall j :: j in rows && j != k ==> rows[j] == old(rows)[j]
    {
      hide Hits, Steady, WithoutExpired;
      var k := WindowKey(scope, ident, window, now);
      var created := k !in rows;
      ghost var s := State(rows, now, log);
      SteadyLater(Now(), now);
      CountKeepsSteady(s, k, limit);
      if created {
        rows := rows[k := Counter(0, Expiry(k))];
      }
      rows := rows[k := rows[k].(count := rows[k].count + 1)];
      clock, log := now, log + [Hit(k, now, now, limit, Counted(created))];
      assert rows == Increment(s.table, k);
      assert Now() == CountAt(s, k, now, limit);
      if created {
        SweepKeepsSteady(Now());
        KeptBySweep(rows, now, k);
        LeftBySweep(rows, now);
        rows := WithoutExpired(rows, now);
      }
      allowed := rows[k].count <= limit;
    }

    /** `exceeded` counts nothing. */
    method IsExceeded(scope: string, ident: string, limit: nat, window: nat, now: Instant) returns (r: bool)
      requires Valid() && window > 0 && clock <= now
      ensures r <==> Hits(log, WindowKey(scope, ident, window, now)) >= limit
    {
      var k := WindowKey(scope, ident, window, now);
      assert AgreesOn(Now(), k);
      var count := if k in rows then rows[k].count else 0;
      r := count >= limit;
    }
  }
}
