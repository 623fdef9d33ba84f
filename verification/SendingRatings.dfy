/** The rating requests of the sending protocol: how many a delivery can get when they come together. */
module SendingRatings {
  import opened Prelude
  import opened Calendar
  import opened Deliveries
  import opened Quotas
  import opened Sending
  import opened SendingOnce
  import opened SendingRuns

  // ---- as many as are under way ---------------------------------------------------------------------------

  /** Rating requests for `d` between their check for an earlier one and the notification they create. */
  function RatingJobs(s: State, d: DeliveryId): set<Pid> {
    set p | p in s.procs && (Underway(s.procs[p]) || s.procs[p].Logged?) && s.procs[p].job == ForRating(d)
  }

  function Ratings(s: State, d: DeliveryId): nat {
    CountNotes(s.db.notes, Note(d, RatingNote))
  }

  lemma SaveKeepsRatings(cfg: Settings, s: State, p: Pid, d: DeliveryId)
    requires Enabled(s, Save(p))
    ensures var s' := Do(cfg, s, Save(p)); Ratings(s', d) + |RatingJobs(s', d)| == Ratings(s, d) + |RatingJobs(s, d)|
  {
    SaveEffect(cfg, s, p);
    hide Do, Enabled, CountNotes, RatingJobs;
    var s' := Do(cfg, s, Save(p));
    CountNotesAppend(s.db.notes, Note(s.procs[p].job.d, RatingNote), Note(d, RatingNote));
    OneJobLess(s, s', p, d);
  }

  lemma OneJobLess(s: State, s': State, p: Pid, d: DeliveryId)
    requires p in s.procs && s.procs[p].Logged? && s'.procs == s.procs[p := Saved(s.procs[p].job, s.procs[p].q, s.procs[p].row)]
    ensures |RatingJobs(s', d)| == |RatingJobs(s, d)| - if s.procs[p].job == ForRating(d) then 1 else 0
  {
    hide HoldsDelivery, HoldsShop;
    assert RatingJobs(s', d) == RatingJobs(s, d) - {p};
    assert p in RatingJobs(s, d) <==> s.procs[p].job == ForRating(d);
    if p !in RatingJobs(s, d) {
      assert RatingJobs(s, d) - {p} == RatingJobs(s, d);
    }
  }

  lemma SaveEffect(cfg: Settings, s: State, p: Pid)
    requires Enabled(s, Save(p))
    ensures p in s.procs && s.procs[p].Logged?
    ensures var s', job := Do(cfg, s, Save(p)), s.procs[p].job;
            && s'.procs == s.procs[p := Saved(job, s.procs[p].q, s.procs[p].row)]
            && s'.db.notes == if job.ForRating? then s.db.notes + [Note(job.d, RatingNote)] else s.db.notes
  {
  }

  lemma OtherKeepsRatings(cfg: Settings, s: State, a: Action, d: DeliveryId)
    requires Enabled(s, a) && !a.Save? && !a.BeginRating?
    ensures var s' := Do(cfg, s, a); Ratings(s', d) == Ratings(s, d) && RatingJobs(s', d) <= RatingJobs(s, d)
  {
    if a.Commit? {
      CountNotesAppend(s.db.notes, Note(s.procs[a.p].job.d, OnTheWayNote), Note(d, RatingNote));
      CommitEffect(cfg, s, a.p, a.startedAt);
      hide Do, Enabled, CountNotes;
    } else {
      hide Verdict, CountNotes, AlreadyStarted, HasNote, CommitJob;
    }
  }

  /** Only a request that found no rating notification joins them; each leaves with one at most. */
  lemma StepKeepsRatings(cfg: Settings, s: State, a: Action, d: DeliveryId)
    requires Enabled(s, a)
    ensures var s' := Do(cfg, s, a);
            Ratings(s', d) + |RatingJobs(s', d)| <= Ratings(s, d) + |RatingJobs(s, d)| || Ratings(s', d) == 0
  {
    if a.Save? {
      SaveKeepsRatings(cfg, s, a.p, d);
    } else if a.BeginRating? {
      hide CountNotes;
      if RatingJobs(Do(cfg, s, a), d) <= RatingJobs(s, d) {
        SubsetIsSmaller(RatingJobs(Do(cfg, s, a), d), RatingJobs(s, d));
      }
    } else {
      OtherKeepsRatings(cfg, s, a, d);
      SubsetIsSmaller(RatingJobs(Do(cfg, s, a), d), RatingJobs(s, d));
    }
  }

  /**
   No lock and no constraint guards the one rating request of a delivery: with at most `k` of them under way at
   a time there are at most `k`, under every interleaving; one at a time, there is one.
   */
  lemma {:induction false} RatingsUpToConcurrency(
      cfg: Settings, deliveries: map<DeliveryId, Delivery>, actions: seq<Action>, d: DeliveryId, k: nat)
    requires forall n :: 0 <= n <= |actions| ==> |RatingJobs(Run(cfg, deliveries, actions[..n]), d)| <= k
    ensures var s := Run(cfg, deliveries, actions); Ratings(s, d) + |RatingJobs(s, d)| <= k
  {
    hide Do, Enabled, RatingJobs;
    assert actions[..|actions|] == actions;
    if actions != [] {
      var front, a := actions[..|actions| - 1], actions[|actions| - 1];
      assert forall n :: 0 <= n <= |front| ==> front[..n] == actions[..n];
      RatingsUpToConcurrency(cfg, deliveries, front, d, k);
      var s := Run(cfg, deliveries, front);
      if Enabled(s, a) {
        StepKeepsRatings(cfg, s, a, d);
      }
    }
  }

  // ---- and all that are under way can send ----------------------------------------------------------------------

  function RatingRequestOf(s: State, d: DeliveryId): Request
    requires d in s.db.deliveries
  {
    var row := s.db.deliveries[d];
    Request(row.shop, Some(d), row.phone, RatingRequest, row.risky)
  }

  function Copies<T>(x: T, n: nat): seq<T> {
    seq(n, _ => x)
  }

  /** The first `n` requests find no rating notification. */
  function Begins(pids: seq<Pid>, n: nat, d: DeliveryId): seq<Action>
    requires n <= |pids|
  {
    if n == 0 then [] else Begins(pids, n - 1, d) + [BeginRating(pids[n - 1], d, false)]
  }

  /** The rest of a request, on its own. */
  function Finishing(p: Pid, shop: ShopId, limits: Limits, now: Time): seq<Action> {
    [ReadClock(p, now), LockShop(p), CheckLimits(p, shop, limits), Commit(p, now), Save(p)]
  }

  function Finishes(pids: seq<Pid>, n: nat, shop: ShopId, limits: Limits, now: Time): seq<Action>
    requires n <= |pids|
  {
    if n == 0 then [] else Finishes(pids, n - 1, shop, limits, now) + Finishing(pids[n - 1], shop, limits, now)
  }

  function Race(pids: seq<Pid>, d: DeliveryId, shop: ShopId, limits: Limits, now: Time): seq<Action> {
    Begins(pids, |pids|, d) + Finishes(pids, |pids|, shop, limits, now)
  }

  ghost predicate Distinct(pids: seq<Pid>) {
    forall i, j :: 0 <= i < j < |pids| ==> pids[i] != pids[j]
  }

  /** A started delivery without a rating request, and tasks that have not begun. */
  ghost predicate CanRace(s: State, pids: seq<Pid>, d: DeliveryId) {
    && Distinct(pids) && (forall i :: 0 <= i < |pids| ==> pids[i] !in s.procs)
    && d in s.db.deliveries && d in s.db.tokens && Ratings(s, d) == 0 && s.db.deliveries[d].shop !in s.shopLock
  }

  /** There is room for `k` more messages. */
  ghost predicate HasRoom(cfg: Settings, limits: Limits, rows: seq<Row>, q: Request, now: Time, k: nat) {
    forall j: nat :: j < k ==> Verdict(cfg, limits, rows + Copies(RowOf(q, now), j), q, now).None?
  }

  lemma {:induction false} AfterBegins(cfg: Settings, s: State, pids: seq<Pid>, n: nat, d: DeliveryId)
    requires CanRace(s, pids, d) && n <= |pids|
    ensures var s' := Continue(cfg, s, Begins(pids, n, d));
            && s'.db == s.db && s'.shopLock == s.shopLock
            && (forall i :: 0 <= i < n ==> pids[i] in s'.procs && s'.procs[pids[i]] == Ready(ForRating(d), RatingRequestOf(s, d)))
            && (forall i :: n <= i < |pids| ==> pids[i] !in s'.procs)
  {
    if n > 0 {
      AfterBegins(cfg, s, pids, n - 1, d);
      var s1 := Continue(cfg, s, Begins(pids, n - 1, d));
      ContinueAll(cfg, s, Begins(pids, n - 1, d), [BeginRating(pids[n - 1], d, false)]);
      OneStep(cfg, s1, BeginRating(pids[n - 1], d, false));
      assert !HasNote(s1.db, d, RatingNote);
      hide Continue, HasNote;
    }
  }

  lemma SavesRating(cfg: Settings, s: State, p: Pid, d: DeliveryId, q: Request, row: nat)
    requires p in s.procs && s.procs[p] == Logged(ForRating(d), q, row) && d in s.db.deliveries
    ensures var s' := Step(cfg, s, Save(p));
            && s'.db == s.db.(notes := s.db.notes + [Note(d, RatingNote)])
            && s'.procs == s.procs[p := Saved(ForRating(d), q, row)]
            && forall x :: x in s'.shopLock ==> x in s.shopLock
  {
  }

  lemma FinishOne(cfg: Settings, s: State, p: Pid, d: DeliveryId, q: Request, limits: Limits, now: Time)
    requires p in s.procs && s.procs[p] == Ready(ForRating(d), q) && q.shop !in s.shopLock && d in s.db.deliveries
    requires Verdict(cfg, limits, s.db.rows, q, now).None?
    ensures var s' := Continue(cfg, s, Finishing(p, q.shop, limits, now));
            && s'.db == s.db.(rows := s.db.rows + [RowOf(q, now)], notes := s.db.notes + [Note(d, RatingNote)])
            && s'.procs == s.procs[p := Saved(ForRating(d), q, |s.db.rows|)]
            && q.shop !in s'.shopLock
  {
    hide Step, Verdict;
    FiveSteps(cfg, s, Finishing(p, q.shop, limits, now));
    ReachCleared(cfg, s, p, ForRating(d), q, limits, now);
    var s3 := Step(cfg, Step(cfg, Step(cfg, s, ReadClock(p, now)), LockShop(p)), CheckLimits(p, q.shop, limits));
    CommitsCleared(cfg, s3, p, ForRating(d), q, now);
    SavesRating(cfg, Step(cfg, s3, Commit(p, now)), p, d, q, |s.db.rows|);
  }

  lemma {:induction false} AfterFinishes(
      cfg: Settings, s: State, pids: seq<Pid>, n: nat, d: DeliveryId, q: Request, limits: Limits, now: Time)
    requires n <= |pids| && Distinct(pids) && q.shop !in s.shopLock && d in s.db.deliveries
    requires forall i :: 0 <= i < |pids| ==> pids[i] in s.procs && s.procs[pids[i]] == Ready(ForRating(d), q)
    requires HasRoom(cfg, limits, s.db.rows, q, now, |pids|)
    ensures var s' := Continue(cfg, s, Finishes(pids, n, q.shop, limits, now));
            && s'.db == s.db.(rows := s.db.rows + Copies(RowOf(q, now), n), notes := s.db.notes + Copies(Note(d, RatingNote), n))
            && q.shop !in s'.shopLock
            && forall i :: n <= i < |pids| ==> pids[i] in s'.procs && s'.procs[pids[i]] == Ready(ForRating(d), q)
  {
    hide Verdict, Finishing;
    var rows, notes := s.db.rows, s.db.notes;
    if n == 0 {
      assert rows + Copies(RowOf(q, now), 0) == rows && notes + Copies(Note(d, RatingNote), 0) == notes;
    } else {
      AfterFinishes(cfg, s, pids, n - 1, d, q, limits, now);
      ContinueAll(cfg, s, Finishes(pids, n - 1, q.shop, limits, now), Finishing(pids[n - 1], q.shop, limits, now));
      var s1 := Continue(cfg, s, Finishes(pids, n - 1, q.shop, limits, now));
      hide Continue;
      FinishOne(cfg, s1, pids[n - 1], d, q, limits, now);
      assert rows + Copies(RowOf(q, now), n - 1) + [RowOf(q, now)] == rows + Copies(RowOf(q, now), n);
      assert notes + Copies(Note(d, RatingNote), n - 1) + [Note(d, RatingNote)] == notes + Copies(Note(d, RatingNote), n);
    }
  }

  lemma {:induction false} CountCopies(notes: seq<Note>, n: Note, k: nat)
    ensures CountNotes(notes + Copies(n, k), n) == CountNotes(notes, n) + k
  {
    if k == 0 {
      assert notes + Copies(n, 0) == notes;
    } else {
      CountCopies(notes, n, k - 1);
      CountNotesAppend(notes + Copies(n, k - 1), n, n);
      assert notes + Copies(n, k - 1) + [n] == notes + Copies(n, k);
    }
  }

  /**
   So the bound is no formality: any run that reaches a started delivery without a rating request, with room for as
   many messages as there are tasks, can go on with tasks that fire together, and each of them sends one.
   */
  lemma EachTaskGivesARating(
      cfg: Settings, deliveries: map<DeliveryId, Delivery>, actions: seq<Action>, pids: seq<Pid>, d: DeliveryId,
      limits: Limits, now: Time)
    requires var s := Run(cfg, deliveries, actions);
             CanRace(s, pids, d) && HasRoom(cfg, limits, s.db.rows, RatingRequestOf(s, d), now, |pids|)
    ensures var shop := Run(cfg, deliveries, actions).db.deliveries[d].shop;
            Ratings(Run(cfg, deliveries, actions + Race(pids, d, shop, limits, now)), d) == |pids|
  {
    var s := Run(cfg, deliveries, actions);
    var q := RatingRequestOf(s, d);
    var a, b := Begins(pids, |pids|, d), Finishes(pids, |pids|, q.shop, limits, now);
    RunIsContinue(cfg, deliveries, actions);
    RunIsContinue(cfg, deliveries, actions + (a + b));
    ContinueAll(cfg, Start(deliveries), actions, a + b);
    ContinueAll(cfg, s, a, b);
    hide Continue, Verdict, Run, CountNotes;
    AfterBegins(cfg, s, pids, |pids|, d);
    AfterFinishes(cfg, Continue(cfg, s, a), pids, |pids|, d, q, limits, now);
    CountCopies(s.db.notes, Note(d, RatingNote), |pids|);
  }

  // ---- a whole run ----------------------------------------------------------------------------------------------

  const ORDER := Delivery(0, "name", "number", false, "address", None, Created, 0, None, None, None, None, None)

  /** Request 0 starts delivery 0: seven actions. */
  function OneStart(limits: Limits): seq<Action> {
    [BeginStart(0, 0, Created, Some(0)), Route(0, None)] + Starting(0, 0, limits, 0)
  }

  lemma AfterOneStart(cfg: Settings, limits: Limits)
    requires cfg.recipientDay >= 1 && cfg.globalDay >= 1 && limits.day >= 1 && limits.month >= 1 && !limits.trial
    ensures var s := Run(cfg, map[0 := ORDER], OneStart(limits));
            && s.procs.Keys == {0} && s.procs[0].Logged? && s.procs[0].job.ForStart? && 0 !in s.shopLock
            && 0 in s.db.deliveries && s.db.deliveries[0].shop == 0 && !s.db.deliveries[0].risky && 0 in s.db.tokens
            && s.db.notes == [Note(0, OnTheWayNote)] && |s.db.rows| == 1
  {
    var s0, a := Start(map[0 := ORDER]), [BeginStart(0, 0, Created, Some(0)), Route(0, None)];
    RunIsContinue(cfg, map[0 := ORDER], OneStart(limits));
    ContinueAll(cfg, s0, a, Starting(0, 0, limits, 0));
    TwoSteps(cfg, s0, a[0], a[1]);
    var s2 := Step(cfg, Step(cfg, s0, a[0]), a[1]);
    assert s2.procs == map[0 := Routed(0, 0)] && s2.db == s0.db && s2.shopLock == map[] && s2.deliveryLock == map[];
    FewRowsPass(cfg, limits, [], StartRequest(s2.db, 0), 0);
    hide Continue, Verdict, Step;
    StartCommits(cfg, s2, 0, 0, 0, limits, 0);
  }

  /** Whose rating request began. */
  function Began(actions: seq<Action>): set<Pid> {
    set i | 0 <= i < |actions| && actions[i].BeginRating? :: actions[i].p
  }

  lemma {:induction false} RatingJobsBegan(
      cfg: Settings, deliveries: map<DeliveryId, Delivery>, actions: seq<Action>, n: nat, d: DeliveryId)
    requires n <= |actions|
    ensures RatingJobs(Run(cfg, deliveries, actions[..n]), d) <= Began(actions)
  {
    if n > 0 {
      RatingJobsBegan(cfg, deliveries, actions, n - 1, d);
      assert actions[..n][..n - 1] == actions[..n - 1];
      var s, a := Run(cfg, deliveries, actions[..n - 1]), actions[n - 1];
      hide Run;
      if Enabled(s, a) {
        JobsBegin(cfg, s, a, d);
      }
    }
  }

  lemma JobsBegin(cfg: Settings, s: State, a: Action, d: DeliveryId)
    requires Enabled(s, a)
    ensures forall p :: p in RatingJobs(Do(cfg, s, a), d) ==> p in RatingJobs(s, d) || (a.BeginRating? && a.p == p)
  {
    hide Verdict, HasNote, AlreadyStarted, CommitJob, SaveJob;
  }

  lemma {:induction false} BeginsBegan(pids: seq<Pid>, n: nat, d: DeliveryId)
    requires n <= |pids|
    ensures forall p :: p in Began(Begins(pids, n, d)) ==> p in pids
  {
    if n > 0 {
      BeginsBegan(pids, n - 1, d);
      BeganAll(Begins(pids, n - 1, d), [BeginRating(pids[n - 1], d, false)]);
    }
  }

  lemma {:induction false} FinishesBegan(pids: seq<Pid>, n: nat, shop: ShopId, limits: Limits, now: Time)
    requires n <= |pids|
    ensures Began(Finishes(pids, n, shop, limits, now)) == {}
  {
    if n > 0 {
      FinishesBegan(pids, n - 1, shop, limits, now);
      BeganAll(Finishes(pids, n - 1, shop, limits, now), Finishing(pids[n - 1], shop, limits, now));
    }
  }

  lemma BeganAll(a: seq<Action>, b: seq<Action>)
    ensures Began(a + b) == Began(a) + Began(b)
  {
    forall p | p in Began(b) ensures p in Began(a + b) {
      var i :| 0 <= i < |b| && b[i].BeginRating? && b[i].p == p;
      assert (a + b)[|a| + i] == b[i];
    }
    forall p | p in Began(a) ensures p in Began(a + b) {
      var i :| 0 <= i < |a| && a[i].BeginRating? && a[i].p == p;
      assert (a + b)[i] == a[i];
    }
  }

  lemma {:induction false} ManyIsSize(pids: seq<Pid>)
    ensures |set i | 0 <= i < |pids| :: pids[i]| <= |pids|
  {
    var all := set i | 0 <= i < |pids| :: pids[i];
    if pids == [] {
      assert all == {};
    } else {
      var front := pids[..|pids| - 1];
      ManyIsSize(front);
      var some := set i | 0 <= i < |front| :: front[i];
      assert all == some + {pids[|pids| - 1]};
    }
  }

  lemma RaceBegan(pids: seq<Pid>, d: DeliveryId, shop: ShopId, limits: Limits, now: Time, before: seq<Action>)
    requires Began(before) == {}
    ensures |Began(before + Race(pids, d, shop, limits, now))| <= |pids|
  {
    var a, b := Begins(pids, |pids|, d), Finishes(pids, |pids|, shop, limits, now);
    BeganAll(before, a + b);
    BeganAll(a, b);
    BeginsBegan(pids, |pids|, d);
    FinishesBegan(pids, |pids|, shop, limits, now);
    ManyIsSize(pids);
    SubsetIsSmaller(Began(a), set i | 0 <= i < |pids| :: pids[i]);
  }

  /** A run in which at most `k` rating requests are ever under way for a delivery, and it gets `k`. */
  ghost predicate ReachesRatings(cfg: Settings, k: nat) {
    exists deliveries, actions, d ::
      && (forall n :: 0 <= n <= |actions| ==> |RatingJobs(Run(cfg, deliveries, actions[..n]), d)| <= k)
      && Ratings(Run(cfg, deliveries, actions), d) == k
  }

  function Tasks(k: nat): seq<Pid> {
    seq(k, i => i + 1)
  }

  lemma OneStartCanRace(cfg: Settings, limits: Limits, k: nat)
    requires cfg.recipientDay >= 1 && cfg.globalDay >= 1 && limits.day >= 1 && limits.month >= 1 && !limits.trial
    ensures var s := Run(cfg, map[0 := ORDER], OneStart(limits));
            CanRace(s, Tasks(k), 0) && s.db.deliveries[0].shop == 0 && !s.db.deliveries[0].risky && |s.db.rows| == 1
  {
    AfterOneStart(cfg, limits);
    hide Run, OneStart;
    var s := Run(cfg, map[0 := ORDER], OneStart(limits));
    CountNotesAppend([], Note(0, OnTheWayNote), Note(0, RatingNote));
    assert [] + [Note(0, OnTheWayNote)] == s.db.notes;
  }

  lemma RoomForAll(cfg: Settings, limits: Limits, rows: seq<Row>, q: Request, now: Time, k: nat)
    requires q.kind == RatingRequest && !limits.trial
    requires |rows| + k <= limits.day && |rows| + k <= limits.month
    requires |rows| + k <= cfg.recipientDay && |rows| + k <= cfg.globalDay
    ensures HasRoom(cfg, limits, rows, q, now, k)
  {
    hide Verdict;
    forall j: nat | j < k ensures Verdict(cfg, limits, rows + Copies(RowOf(q, now), j), q, now).None? {
      FewRowsPass(cfg, limits, rows + Copies(RowOf(q, now), j), q, now);
    }
  }

  lemma OneStartBegan(limits: Limits)
    ensures Began(OneStart(limits)) == {}
  {
  }

  /** The bound is reached for every number of tasks the caps of a day have room for. */
  lemma RatingsReachConcurrency(cfg: Settings, k: nat)
    requires k < cfg.recipientDay && k < cfg.globalDay
    ensures ReachesRatings(cfg, k)
  {
    hide Run, OneStart, Race, CanRace, HasRoom, RatingJobs, Began, Ratings;
    var limits := Limits.Limits(k + 1, k + 1, false, false);
    var deliveries, actions, pids := map[0 := ORDER], OneStart(limits), Tasks(k);
    OneStartCanRace(cfg, limits, k);
    var s := Run(cfg, deliveries, actions);
    assert 0 in s.db.deliveries by {
      StillThere(s, pids, 0);
    }
    RoomForAll(cfg, limits, s.db.rows, RatingRequestOf(s, 0), 0, k);
    EachTaskGivesARating(cfg, deliveries, actions, pids, 0, limits, 0);
    OneStartBegan(limits);
    RaceBegan(pids, 0, 0, limits, 0, actions);
    FewUnderWay(cfg, deliveries, actions + Race(pids, 0, 0, limits, 0), 0, k);
  }

  lemma StillThere(s: State, pids: seq<Pid>, d: DeliveryId)
    requires CanRace(s, pids, d)
    ensures d in s.db.deliveries
  {
  }

  lemma FewUnderWay(cfg: Settings, deliveries: map<DeliveryId, Delivery>, actions: seq<Action>, d: DeliveryId, k: nat)
    requires |Began(actions)| <= k
    ensures forall n :: 0 <= n <= |actions| ==> |RatingJobs(Run(cfg, deliveries, actions[..n]), d)| <= k
  {
    hide Run, RatingJobs, Began;
    forall n | 0 <= n <= |actions| ensures |RatingJobs(Run(cfg, deliveries, actions[..n]), d)| <= k {
      RatingJobsBegan(cfg, deliveries, actions, n, d);
      SubsetIsSmaller(RatingJobs(Run(cfg, deliveries, actions[..n]), d), Began(actions));
    }
  }
}
