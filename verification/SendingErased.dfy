/**
 The erasure of recipient data between the steps of the sending protocol. No request looks at `pii_purged_at` again
 once it has its copy of a delivery; what keeps an erased delivery from being sent for is its on-the-way notification.
 */
module SendingErased {
  import opened Prelude
  import opened Calendar
  import opened Deliveries
  import opened Quotas
  import opened Sending
  import opened SendingOnce
  import opened SendingRuns
  import Retention

  // ---- a delivery that was started before ---------------------------------------------------------------------

  /** A request that will send for `d`, or has. */
  predicate SendsFor(proc: Proc, d: DeliveryId) {
    (Underway(proc) || OwnsRow(proc)) && proc.job.d == d
  }

  /** It was started, its token is gone, and no request but the `earlier` ones sends for it. */
  ghost predicate LeftAlone(s: State, d: DeliveryId, earlier: set<Pid>) {
    && HasNote(s.db, d, OnTheWayNote) && d !in s.db.tokens
    && forall p :: p in s.procs && p !in earlier ==> !SendsFor(s.procs[p], d)
  }

  lemma NotesStay(notes: seq<Note>, m: Note, n: Note)
    ensures CountNotes(notes + [m], n) >= CountNotes(notes, n)
  {
  }

  lemma NotesOnlyGrow(cfg: Settings, s: State, a: Action, d: DeliveryId)
    requires Enabled(s, a) && HasNote(s.db, d, OnTheWayNote)
    ensures HasNote(Do(cfg, s, a).db, d, OnTheWayNote)
  {
    if a.Commit? || a.Save? {
      NotesStay(s.db.notes, Note(s.procs[a.p].job.d, OnTheWayNote), Note(d, OnTheWayNote));
      NotesStay(s.db.notes, Note(s.procs[a.p].job.d, RatingNote), Note(d, OnTheWayNote));
    }
    hide Verdict, CountNotes;
  }

  /** Only the commit of a start makes a token, and nobody holds a delivery with a notification to start it. */
  lemma TokenStaysGone(cfg: Settings, s: State, a: Action, d: DeliveryId)
    requires StartingIsUnstarted(s) && Enabled(s, a) && HasNote(s.db, d, OnTheWayNote) && d !in s.db.tokens
    ensures d !in Do(cfg, s, a).db.tokens
  {
    hide Verdict, HasNote, AlreadyStarted, StartingIsUnstarted;
    if a.Commit? {
      NobodyStarts(s, a.p, d);
    }
  }

  lemma NobodyStarts(s: State, p: Pid, d: DeliveryId)
    requires StartingIsUnstarted(s) && HasNote(s.db, d, OnTheWayNote) && p in s.procs
    ensures !HoldsDelivery(s.procs[p], d)
  {
    hide HoldsDelivery, HasNote;
  }

  lemma NoNewSends(cfg: Settings, s: State, a: Action, d: DeliveryId, p: Pid)
    requires Enabled(s, a) && HasNote(s.db, d, OnTheWayNote) && d !in s.db.tokens
    requires p in Do(cfg, s, a).procs && SendsFor(Do(cfg, s, a).procs[p], d)
    ensures p in s.procs && SendsFor(s.procs[p], d)
  {
    hide Verdict, HasNote, CommitJob, SaveJob;
  }

  lemma StepLeavesAlone(cfg: Settings, s: State, a: Action, d: DeliveryId, earlier: set<Pid>)
    requires StartingIsUnstarted(s) && LeftAlone(s, d, earlier) && Enabled(s, a)
    ensures LeftAlone(Do(cfg, s, a), d, earlier)
  {
    NotesOnlyGrow(cfg, s, a, d);
    TokenStaysGone(cfg, s, a, d);
    hide Do, Enabled, HasNote, StartingIsUnstarted, SendsFor;
    forall p | p in Do(cfg, s, a).procs && p !in earlier ensures !SendsFor(Do(cfg, s, a).procs[p], d) {
      if SendsFor(Do(cfg, s, a).procs[p], d) {
        NoNewSends(cfg, s, a, d, p);
      }
    }
  }

  lemma {:induction false} RunLeavesAlone(
      cfg: Settings, deliveries: map<DeliveryId, Delivery>, actions: seq<Action>, n: nat, d: DeliveryId, earlier: set<Pid>)
    requires n <= |actions| && LeftAlone(Run(cfg, deliveries, actions[..n]), d, earlier)
    ensures LeftAlone(Run(cfg, deliveries, actions), d, earlier)
    decreases |actions|
  {
    hide Do, Enabled, LeftAlone;
    if n == |actions| {
      assert actions[..n] == actions;
    } else {
      var front, a := actions[..|actions| - 1], actions[|actions| - 1];
      assert front[..n] == actions[..n];
      RunLeavesAlone(cfg, deliveries, front, n, d, earlier);
      RunKeepsOnce(cfg, deliveries, front);
      var s := Run(cfg, deliveries, front);
      if Enabled(s, a) {
        StepLeavesAlone(cfg, s, a, d, earlier);
      }
    }
  }

  lemma PurgeLeavesAlone(cfg: Settings, s: State, d: DeliveryId, cutoff: int, now: Time)
    requires Enabled(s, Purge(d, cutoff, now)) && HasNote(s.db, d, OnTheWayNote)
    ensures LeftAlone(Do(cfg, s, Purge(d, cutoff, now)), d, s.procs.Keys)
  {
  }

  /**
   In every run, a delivery erased after it was started is left alone: its token does not come back, and no request
   that begins later, on however stale a copy, gets as far as a reservation for it.
   */
  lemma ErasedIsLeftAlone(
      cfg: Settings, deliveries: map<DeliveryId, Delivery>, actions: seq<Action>, n: nat, d: DeliveryId)
    requires n < |actions| && actions[n].Purge? && actions[n].d == d
    requires var s := Run(cfg, deliveries, actions[..n]); Enabled(s, actions[n]) && HasNote(s.db, d, OnTheWayNote)
    ensures LeftAlone(Run(cfg, deliveries, actions), d, Run(cfg, deliveries, actions[..n]).procs.Keys)
  {
    var s := Run(cfg, deliveries, actions[..n]);
    assert actions[..n + 1][..n] == actions[..n];
    assert Run(cfg, deliveries, actions[..n + 1]) == Do(cfg, s, actions[n]);
    hide Run, Do, Enabled, LeftAlone, HasNote;
    PurgeLeavesAlone(cfg, s, d, actions[n].cutoff, actions[n].now);
    RunLeavesAlone(cfg, deliveries, actions, n + 1, d, s.procs.Keys);
  }

  // ---- a delivery that was not ------------------------------------------------------------------------------------

  /** The purge takes the delivery after request `p` found its route; then the request goes on to its call. */
  function ErasedThenStarted(p: Pid, d: DeliveryId, shop: ShopId, limits: Limits, cutoff: int, now: Time): seq<Action> {
    [Purge(d, cutoff, now)] + Starting(p, shop, limits, now) + [Save(p), Call(p)]
  }

  /** What the request would ask for after the purge: a message to no number. */
  function ErasedRequest(s: State, d: DeliveryId): Request
    requires d in s.db.deliveries
  {
    var row := s.db.deliveries[d];
    Request(row.shop, Some(d), "", OnTheWay, row.risky)
  }

  lemma PurgeEffect(cfg: Settings, s: State, d: DeliveryId, cutoff: int, now: Time)
    requires Enabled(s, Purge(d, cutoff, now))
    ensures var s' := Step(cfg, s, Purge(d, cutoff, now));
            && s'.db == Erase(s.db, d, now) && s'.procs == s.procs && s'.deliveryLock == s.deliveryLock
            && s'.shopLock == s.shopLock && s'.calls == s.calls
            && s'.db.deliveries[d].status == s.db.deliveries[d].status
            && (AlreadyStarted(s'.db, d, s'.db.deliveries[d].status) <==> AlreadyStarted(s.db, d, s.db.deliveries[d].status))
            && StartRequest(s'.db, d) == ErasedRequest(s, d)
  {
  }

  lemma Calls(cfg: Settings, s: State, p: Pid, job: Job, q: Request, row: nat)
    requires p in s.procs && s.procs[p] == Logged(job, q, row) && job.ForStart? && job.d in s.db.deliveries
    ensures var s' := Continue(cfg, s, [Save(p), Call(p)]);
            && s'.db == s.db && p in s'.procs && s'.procs[p] == Called(job, q, row)
  {
    TwoSteps(cfg, s, Save(p), Call(p));
  }

  lemma QuitStays(cfg: Settings, s: State, p: Pid, a: Action)
    requires p in s.procs && s.procs[p].Quit? && !a.BeginStart? && !a.BeginResend? && !a.BeginRating? && IsRequest(a) && a.p == p
    ensures Step(cfg, s, a) == s
  {
  }

  lemma {:induction false} QuitGoesNowhere(cfg: Settings, s: State, p: Pid, a: seq<Action>)
    requires p in s.procs && s.procs[p].Quit?
    requires forall i :: 0 <= i < |a| ==>
               !a[i].BeginStart? && !a[i].BeginResend? && !a[i].BeginRating? && IsRequest(a[i]) && a[i].p == p
    ensures Continue(cfg, s, a) == s
  {
    hide Step;
    if a != [] {
      QuitGoesNowhere(cfg, s, p, a[..|a| - 1]);
      QuitStays(cfg, s, p, a[|a| - 1]);
    }
  }

  lemma LockQuits(cfg: Settings, s: State, p: Pid, d: DeliveryId, eta: Time)
    requires p in s.procs && s.procs[p] == Routed(d, eta) && d in s.db.deliveries && d !in s.deliveryLock
    requires AlreadyStarted(s.db, d, s.db.deliveries[d].status)
    ensures var s' := Step(cfg, s, LockDelivery(p)); s'.db == s.db && p in s'.procs && s'.procs[p].Quit?
  {
    hide AlreadyStarted;
  }

  /** The last seven of those actions, when the delivery looks started. */
  lemma StaysOut(cfg: Settings, s: State, p: Pid, d: DeliveryId, eta: Time, shop: ShopId, limits: Limits, now: Time)
    requires p in s.procs && s.procs[p] == Routed(d, eta) && d in s.db.deliveries && d !in s.deliveryLock
    requires AlreadyStarted(s.db, d, s.db.deliveries[d].status)
    ensures var s' := Continue(cfg, s, Starting(p, shop, limits, now) + [Save(p), Call(p)]);
            s'.db == s.db && p in s'.procs && s'.procs[p].Quit?
  {
    hide Step;
    var all := Starting(p, shop, limits, now) + [Save(p), Call(p)];
    assert all == all[..1] + all[1..] && all[..1] == [LockDelivery(p)];
    ContinueAll(cfg, s, all[..1], all[1..]);
    OneStep(cfg, s, LockDelivery(p));
    LockQuits(cfg, s, p, d, eta);
    QuitGoesNowhere(cfg, Step(cfg, s, LockDelivery(p)), p, all[1..]);
  }

  /** A start on a copy read before the purge, with its shop free and room for the message. */
  ghost predicate CanGoOn(
      cfg: Settings, s: State, p: Pid, d: DeliveryId, eta: Time, limits: Limits, cutoff: int, now: Time) {
    && Enabled(s, Purge(d, cutoff, now)) && p in s.procs && s.procs[p] == Routed(d, eta)
    && s.db.deliveries[d].shop !in s.shopLock
    && Verdict(cfg, limits, s.db.rows, ErasedRequest(s, d), now).None?
  }

  /** The erased delivery is on the way, and the provider was asked to send to an empty number. */
  predicate WasSent(s: State, p: Pid, d: DeliveryId) {
    && p in s.procs && s.procs[p].Called? && s.procs[p].job.d == d && s.procs[p].row < |s.db.rows|
    && s.db.rows[s.procs[p].row].phone == ""
    && d in s.db.deliveries && s.db.deliveries[d].status == OnTheWayStatus && s.db.deliveries[d].purgedAt.Some?
  }

  /**
   After any run: a start that passed its first look before the purge sends for the erased delivery if and only if
   that was never started; otherwise it leaves the erased row alone.
   */
  lemma ErasedIsStartedIff(
      cfg: Settings, deliveries: map<DeliveryId, Delivery>, actions: seq<Action>, p: Pid, d: DeliveryId, eta: Time,
      limits: Limits, cutoff: int, now: Time)
    requires CanGoOn(cfg, Run(cfg, deliveries, actions), p, d, eta, limits, cutoff, now)
    ensures var s := Run(cfg, deliveries, actions);
            var shop := s.db.deliveries[d].shop;
            var s' := Run(cfg, deliveries, actions + ErasedThenStarted(p, d, shop, limits, cutoff, now));
            && (WasSent(s', p, d) <==> !AlreadyStarted(s.db, d, s.db.deliveries[d].status))
            && (!WasSent(s', p, d) ==> s'.db == Erase(s.db, d, now))
  {
    var s := Run(cfg, deliveries, actions);
    var shop := s.db.deliveries[d].shop;
    var a, b, c := [Purge(d, cutoff, now)], Starting(p, shop, limits, now), [Save(p), Call(p)];
    RunIsContinue(cfg, deliveries, actions);
    RunIsContinue(cfg, deliveries, actions + (a + b + c));
    ContinueAll(cfg, Sending.Start(deliveries), actions, a + b + c);
    assert a + b + c == a + (b + c);
    ContinueAll(cfg, s, a, b + c);
    OneStep(cfg, s, a[0]);
    hide Run, Continue, Verdict, AlreadyStarted, Starting;
    PurgeEffect(cfg, s, d, cutoff, now);
    var s1 := Step(cfg, s, a[0]);
    if AlreadyStarted(s.db, d, s.db.deliveries[d].status) {
      StaysOut(cfg, s1, p, d, eta, shop, limits, now);
    } else {
      ContinueAll(cfg, s1, b, c);
      StartsErased(cfg, s1, p, d, eta, limits, now);
    }
  }

  lemma StartsErased(cfg: Settings, s: State, p: Pid, d: DeliveryId, eta: Time, limits: Limits, now: Time)
    requires p in s.procs && s.procs[p] == Routed(d, eta) && d in s.db.deliveries && d !in s.deliveryLock
    requires !AlreadyStarted(s.db, d, s.db.deliveries[d].status)
    requires s.db.deliveries[d].phone == "" && s.db.deliveries[d].purgedAt.Some?
    requires s.db.deliveries[d].shop !in s.shopLock
    requires Verdict(cfg, limits, s.db.rows, StartRequest(s.db, d), now).None?
    ensures WasSent(Continue(cfg, Continue(cfg, s, Starting(p, s.db.deliveries[d].shop, limits, now)), [Save(p), Call(p)]), p, d)
  {
    hide Continue, Verdict, AlreadyStarted, Starting;
    StartCommits(cfg, s, p, d, eta, limits, now);
    var s1 := Continue(cfg, s, Starting(p, s.db.deliveries[d].shop, limits, now));
    Calls(cfg, s1, p, ForStart(d, eta), StartRequest(s.db, d), |s.db.rows|);
  }

  /** The erasure itself: of a row that is due and not locked, all its recipient data and its token, and nothing else. */
  lemma PurgeMeans(cfg: Settings, s: State, d: DeliveryId, days: nat, now: Time)
    requires Enabled(s, Purge(d, Retention.Cutoff(now, days), now))
    ensures var s' := Do(cfg, s, Purge(d, Retention.Cutoff(now, days), now));
            && d !in s.deliveryLock
            && Retention.RowPurged(s.db.deliveries[d], s'.db.deliveries[d], days, now)
            && s'.db.deliveries[d] == s.db.deliveries[d].(name := "", phone := "", address := "", point := None, purgedAt := Some(now))
            && s' == s.(db := s.db.(deliveries := s.db.deliveries[d := s'.db.deliveries[d]], tokens := s.db.tokens - {d}))
  {
    Retention.DueMeans(s.db.deliveries[d], days, now);
  }

  // ---- and it happens -----------------------------------------------------------------------------------------------

  /** Marked delivered long ago, never started. */
  const DONE := Delivery(0, "name", "number", false, "address", None, Delivered, 0, None, None, Some(0), None, None)

  /** Ten actions: a start is asked for just before the purge, and goes out just after it. */
  function LateStart(limits: Limits, now: Time): seq<Action> {
    [BeginStart(0, 0, Delivered, Some(0)), Route(0, None)] + ErasedThenStarted(0, 0, 0, limits, 1, now)
  }

  lemma ErasedCanBeSent(cfg: Settings, limits: Limits, now: Time)
    requires cfg.recipientDay >= 1 && cfg.globalDay >= 1 && limits.day >= 1 && limits.month >= 1
    ensures WasSent(Run(cfg, map[0 := DONE], LateStart(limits, now)), 0, 0)
  {
    var s0, a := Start(map[0 := DONE]), [BeginStart(0, 0, Delivered, Some(0)), Route(0, None)];
    RunIsContinue(cfg, map[0 := DONE], a);
    TwoSteps(cfg, s0, a[0], a[1]);
    var s := Step(cfg, Step(cfg, s0, a[0]), a[1]);
    assert s.procs == map[0 := Routed(0, 0)] && s.db == s0.db && s.shopLock == map[] && s.deliveryLock == map[];
    assert Enabled(s, Purge(0, 1, now));
    assert !AlreadyStarted(s.db, 0, Delivered);
    FewRowsPass(cfg, limits, [], ErasedRequest(s, 0), now);
    hide Continue, Verdict, Step, Run, AlreadyStarted;
    ErasedIsStartedIff(cfg, map[0 := DONE], a, 0, 0, 0, limits, 1, now);
  }
}
