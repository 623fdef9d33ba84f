/** Runs of the sending protocol written out action by action: how they go on, and how one request gets through. */
module SendingRuns {
  import opened Prelude
  import opened Calendar
  import opened Deliveries
  import opened Quotas
  import opened Sending

  // ---- runs that go on --------------------------------------------------------------------------------------

  function Step(cfg: Settings, s: State, a: Action): State {
    if Enabled(s, a) then Do(cfg, s, a) else s
  }

  function Continue(cfg: Settings, s: State, actions: seq<Action>): State {
    if actions == [] then s
    else Step(cfg, Continue(cfg, s, actions[..|actions| - 1]), actions[|actions| - 1])
  }

  lemma {:induction false} ContinueAll(cfg: Settings, s: State, a: seq<Action>, b: seq<Action>)
    ensures Continue(cfg, s, a + b) == Continue(cfg, Continue(cfg, s, a), b)
  {
    hide Step;
    if b == [] {
      assert a + b == a;
    } else {
      ContinueAll(cfg, s, a, b[..|b| - 1]);
      assert (a + b)[..|a + b| - 1] == a + b[..|b| - 1];
    }
  }

  lemma OneStep(cfg: Settings, s: State, a: Action)
    ensures Continue(cfg, s, [a]) == Step(cfg, s, a)
  {
    assert [a][..0] == [];
  }

  lemma {:induction false} RunIsContinue(cfg: Settings, deliveries: map<DeliveryId, Delivery>, actions: seq<Action>)
    ensures Run(cfg, deliveries, actions) == Continue(cfg, Start(deliveries), actions)
  {
    hide Do, Enabled;
    if actions != [] {
      RunIsContinue(cfg, deliveries, actions[..|actions| - 1]);
    }
  }

  lemma ContinueThree(cfg: Settings, s: State, a: seq<Action>, b: seq<Action>, c: seq<Action>)
    ensures Continue(cfg, s, a + b + c) == Continue(cfg, Continue(cfg, Continue(cfg, s, a), b), c)
  {
    ContinueAll(cfg, s, a, b);
    ContinueAll(cfg, s, a + b, c);
  }

  lemma SixSteps(cfg: Settings, s: State, a: seq<Action>)
    requires |a| == 6
    ensures Continue(cfg, s, a)
         == Step(cfg, Step(cfg, Step(cfg, Step(cfg, Step(cfg, Step(cfg, s, a[0]), a[1]), a[2]), a[3]), a[4]), a[5])
  {
    hide Step;
    forall n | 0 <= n < 6 ensures Continue(cfg, s, a[..n + 1]) == Step(cfg, Continue(cfg, s, a[..n]), a[n]) {
      assert a[..n + 1][..n] == a[..n];
    }
    assert a[..6] == a;
  }

  lemma FiveSteps(cfg: Settings, s: State, a: seq<Action>)
    requires |a| == 5
    ensures Continue(cfg, s, a) == Step(cfg, Step(cfg, Step(cfg, Step(cfg, Step(cfg, s, a[0]), a[1]), a[2]), a[3]), a[4])
  {
    hide Step;
    forall n | 0 <= n < 5 ensures Continue(cfg, s, a[..n + 1]) == Step(cfg, Continue(cfg, s, a[..n]), a[n]) {
      assert a[..n + 1][..n] == a[..n];
    }
    assert a[..5] == a;
  }

  lemma TwoSteps(cfg: Settings, s: State, a: Action, b: Action)
    ensures Continue(cfg, s, [a, b]) == Step(cfg, Step(cfg, s, a), b)
  {
    hide Step;
    OneStep(cfg, s, a);
    assert [a, b][..1] == [a];
  }

  // ---- one request -------------------------------------------------------------------------------------------

  lemma {:induction false} CountAtMostAll(rows: seq<Row>, f: Filter)
    ensures CountRows(rows, f) <= |rows|
  {
    hide Matches;
    if rows != [] {
      CountAtMostAll(rows[..|rows| - 1], f);
    }
  }

  /** A check passes while there are fewer rows than every cap. */
  lemma FewRowsPass(cfg: Settings, limits: Limits, rows: seq<Row>, q: Request, now: Time)
    requires !(limits.trial && q.risky) && q.kind != Resend
    requires |rows| < limits.day && |rows| < limits.month && |rows| < cfg.recipientDay && |rows| < cfg.globalDay
    ensures Verdict(cfg, limits, rows, q, now).None?
  {
    CountAtMostAll(rows, ShopSince(q.shop, DayStart(now)));
    CountAtMostAll(rows, ShopSince(q.shop, MonthStart(now)));
    CountAtMostAll(rows, AllSince(DayStart(now)));
    CountAtMostAll(rows, PhoneSince(q.phone, DayStart(now)));
    hide CountRows, DayStart, MonthStart;
  }

  /** Three steps past the check, in a shop that is free, with room for the message. */
  lemma ReachCleared(cfg: Settings, s: State, p: Pid, job: Job, q: Request, limits: Limits, now: Time)
    requires p in s.procs && s.procs[p] == Ready(job, q) && q.shop !in s.shopLock
    requires Verdict(cfg, limits, s.db.rows, q, now).None?
    ensures var s' := Step(cfg, Step(cfg, Step(cfg, s, ReadClock(p, now)), LockShop(p)), CheckLimits(p, q.shop, limits));
            && s'.db == s.db && s'.procs == s.procs[p := Cleared(job, q, now)]
            && s'.shopLock == s.shopLock[q.shop := p]
  {
    hide Verdict;
    var s1 := Step(cfg, s, ReadClock(p, now));
    var s2 := Step(cfg, s1, LockShop(p));
    assert s1.procs == s.procs[p := Asked(job, q, now)];
    assert s2.procs == s.procs[p := InShop(job, q, now)];
  }

  function StartRequest(db: Db, d: DeliveryId): Request
    requires d in db.deliveries
  {
    var row := db.deliveries[d];
    Request(row.shop, Some(d), row.phone, OnTheWay, row.risky)
  }

  /** A start from its locked look at the delivery to its commit. */
  function Starting(p: Pid, shop: ShopId, limits: Limits, now: Time): seq<Action> {
    [LockDelivery(p), ReadClock(p, now), LockShop(p), CheckLimits(p, shop, limits), Commit(p, now)]
  }

  lemma StartLocks(cfg: Settings, s: State, p: Pid, d: DeliveryId, eta: Time)
    requires p in s.procs && s.procs[p] == Routed(d, eta) && d in s.db.deliveries && d !in s.deliveryLock
    requires !AlreadyStarted(s.db, d, s.db.deliveries[d].status)
    ensures var s' := Step(cfg, s, LockDelivery(p));
            && s'.db == s.db && s'.shopLock == s.shopLock
            && s'.procs == s.procs[p := Ready(ForStart(d, eta), StartRequest(s.db, d))]
  {
    hide AlreadyStarted;
  }

  lemma CommitsCleared(cfg: Settings, s: State, p: Pid, job: Job, q: Request, now: Time)
    requires p in s.procs && s.procs[p] == Cleared(job, q, now) && job.d in s.db.deliveries
    requires q.shop in s.shopLock && s.shopLock[q.shop] == p
    ensures var s' := Step(cfg, s, Commit(p, now));
            && s'.db == CommitJob(s.db, job, q, now, now) && s'.procs == s.procs[p := Logged(job, q, |s.db.rows|)]
            && q.shop !in s'.shopLock
  {
    hide CommitJob;
  }

  /** Undisturbed, with its shop free and room for the message, a start of an unstarted delivery commits. */
  lemma StartCommits(cfg: Settings, s: State, p: Pid, d: DeliveryId, eta: Time, limits: Limits, now: Time)
    requires p in s.procs && s.procs[p] == Routed(d, eta) && d in s.db.deliveries && d !in s.deliveryLock
    requires !AlreadyStarted(s.db, d, s.db.deliveries[d].status)
    requires s.db.deliveries[d].shop !in s.shopLock
    requires Verdict(cfg, limits, s.db.rows, StartRequest(s.db, d), now).None?
    ensures var s' := Continue(cfg, s, Starting(p, s.db.deliveries[d].shop, limits, now));
            && s'.db == CommitJob(s.db, ForStart(d, eta), StartRequest(s.db, d), now, now)
            && s'.procs == s.procs[p := Logged(ForStart(d, eta), StartRequest(s.db, d), |s.db.rows|)]
            && s.db.deliveries[d].shop !in s'.shopLock
  {
    hide Step, Verdict, CommitJob, AlreadyStarted;
    var job, q := ForStart(d, eta), StartRequest(s.db, d);
    FiveSteps(cfg, s, Starting(p, q.shop, limits, now));
    StartLocks(cfg, s, p, d, eta);
    var s1 := Step(cfg, s, LockDelivery(p));
    ReachCleared(cfg, s1, p, job, q, limits, now);
    var s4 := Step(cfg, Step(cfg, Step(cfg, s1, ReadClock(p, now)), LockShop(p)), CheckLimits(p, q.shop, limits));
    CommitsCleared(cfg, s4, p, job, q, now);
  }
}
