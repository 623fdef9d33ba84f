/**
 One request of the sending protocol that nobody disturbs, from its first step to its last: exactly what it writes and
 sends, and when it does neither.
 */
module SendingAlone {
  import opened Prelude
  import opened Calendar
  import opened Deliveries
  import opened Quotas
  import opened Sending
  import opened SendingOnce
  import opened SendingRuns
  import opened SendingOrigins

  // ---- from the reservation on -----------------------------------------------------------------------------------

  function Reserving(p: Pid, shop: ShopId, limits: Limits, now: Time, startedAt: Time): seq<Action> {
    [ReadClock(p, now), LockShop(p), CheckLimits(p, shop, limits), Commit(p, startedAt), Save(p), Call(p)]
  }

  lemma CheckRefuses(cfg: Settings, s: State, p: Pid, job: Job, q: Request, limits: Limits, now: Time)
    requires p in s.procs && s.procs[p] == Ready(job, q) && q.shop !in s.shopLock
    requires Verdict(cfg, limits, s.db.rows, q, now).Some?
    ensures var s' := Step(cfg, Step(cfg, Step(cfg, s, ReadClock(p, now)), LockShop(p)), CheckLimits(p, q.shop, limits));
            && s'.db == s.db && s'.calls == s.calls && s'.numbers == s.numbers
            && s'.procs == s.procs[p := Quit(Refused(Verdict(cfg, limits, s.db.rows, q, now).value))]
            && q.shop !in s'.shopLock
  {
    hide Verdict;
    var s1 := Step(cfg, s, ReadClock(p, now));
    var s2 := Step(cfg, s1, LockShop(p));
    assert s1.procs == s.procs[p := Asked(job, q, now)];
    assert s2.procs == s.procs[p := InShop(job, q, now)];
  }

  lemma CheckPasses(cfg: Settings, s: State, p: Pid, job: Job, q: Request, limits: Limits, now: Time)
    requires p in s.procs && s.procs[p] == Ready(job, q) && q.shop !in s.shopLock
    requires Verdict(cfg, limits, s.db.rows, q, now).None?
    ensures var s' := Step(cfg, Step(cfg, Step(cfg, s, ReadClock(p, now)), LockShop(p)), CheckLimits(p, q.shop, limits));
            && s'.db == s.db && s'.calls == s.calls && s'.numbers == s.numbers
            && p in s'.procs && s'.procs[p] == Cleared(job, q, now)
            && q.shop in s'.shopLock && s'.shopLock[q.shop] == p
  {
    hide Verdict;
    var s1 := Step(cfg, s, ReadClock(p, now));
    var s2 := Step(cfg, s1, LockShop(p));
    assert s1.procs[p] == Asked(job, q, now);
    assert s2.procs[p] == InShop(job, q, now);
  }

  lemma Commits(cfg: Settings, s: State, p: Pid, job: Job, q: Request, now: Time, startedAt: Time)
    requires p in s.procs && s.procs[p] == Cleared(job, q, now) && job.d in s.db.deliveries
    ensures var s' := Step(cfg, s, Commit(p, startedAt));
            && s'.db == CommitJob(s.db, job, q, now, startedAt) && s'.calls == s.calls && s'.numbers == s.numbers
            && p in s'.procs && s'.procs[p] == Logged(job, q, |s.db.rows|)
            && job.d in s'.db.deliveries
  {
  }

  lemma SavesAndCalls(cfg: Settings, s: State, p: Pid, job: Job, q: Request, row: nat)
    requires p in s.procs && s.procs[p] == Logged(job, q, row) && job.d in s.db.deliveries
    ensures var s' := Step(cfg, Step(cfg, s, Save(p)), Call(p));
            && s'.db == SaveJob(s.db, job) && s'.calls == s.calls + [row] && s'.numbers == s.numbers + [q.phone]
  {
    hide SaveJob;
  }

  lemma SendsCleared(cfg: Settings, s: State, p: Pid, job: Job, q: Request, now: Time, startedAt: Time)
    requires p in s.procs && s.procs[p] == Cleared(job, q, now) && job.d in s.db.deliveries
    ensures job.d in CommitJob(s.db, job, q, now, startedAt).deliveries
    ensures var s' := Step(cfg, Step(cfg, Step(cfg, s, Commit(p, startedAt)), Save(p)), Call(p));
            && s'.db == SaveJob(CommitJob(s.db, job, q, now, startedAt), job)
            && s'.calls == s.calls + [|s.db.rows|] && s'.numbers == s.numbers + [q.phone]
  {
    hide Step, SaveJob, CommitJob;
    Commits(cfg, s, p, job, q, now, startedAt);
    SavesAndCalls(cfg, Step(cfg, s, Commit(p, startedAt)), p, job, q, |s.db.rows|);
  }

  lemma QuitIsDone(cfg: Settings, s: State, p: Pid, startedAt: Time)
    requires p in s.procs && s.procs[p].Quit?
    ensures Step(cfg, Step(cfg, Step(cfg, s, Commit(p, startedAt)), Save(p)), Call(p)) == s
  {
  }

  lemma Reserves(cfg: Settings, s: State, p: Pid, job: Job, q: Request, limits: Limits, now: Time, startedAt: Time)
    requires p in s.procs && s.procs[p] == Ready(job, q) && q.shop !in s.shopLock && job.d in s.db.deliveries
    ensures job.d in CommitJob(s.db, job, q, now, startedAt).deliveries
    ensures var s', refusal := Continue(cfg, s, Reserving(p, q.shop, limits, now, startedAt)), Verdict(cfg, limits, s.db.rows, q, now);
            if refusal.None? then
              && s'.db == SaveJob(CommitJob(s.db, job, q, now, startedAt), job)
              && s'.calls == s.calls + [|s.db.rows|] && s'.numbers == s.numbers + [q.phone]
            else
              && s'.db == s.db && s'.calls == s.calls && s'.numbers == s.numbers
              && p in s'.procs && s'.procs[p] == Quit(Refused(refusal.value))
  {
    assert job.d in CommitJob(s.db, job, q, now, startedAt).deliveries;
    hide Step, Verdict, CommitJob, SaveJob;
    SixSteps(cfg, s, Reserving(p, q.shop, limits, now, startedAt));
    var s3 := Step(cfg, Step(cfg, Step(cfg, s, ReadClock(p, now)), LockShop(p)), CheckLimits(p, q.shop, limits));
    if Verdict(cfg, limits, s.db.rows, q, now).None? {
      CheckPasses(cfg, s, p, job, q, limits, now);
      SendsCleared(cfg, s3, p, job, q, now, startedAt);
    } else {
      CheckRefuses(cfg, s, p, job, q, limits, now);
      QuitIsDone(cfg, s3, p, startedAt);
    }
  }

  /** A request that quit stays as it is, whatever is left of its steps. */
  lemma QuitReserving(cfg: Settings, s: State, p: Pid, shop: ShopId, limits: Limits, now: Time, startedAt: Time)
    requires p in s.procs && s.procs[p].Quit?
    ensures Continue(cfg, s, Reserving(p, shop, limits, now, startedAt)) == s
  {
    SixSteps(cfg, s, Reserving(p, shop, limits, now, startedAt));
    QuitIsDone(cfg, s, p, startedAt);
  }

  /** Nothing was written and nobody called. */
  predicate Untouched(s: State, s': State) {
    s'.db == s.db && s'.calls == s.calls && s'.numbers == s.numbers
  }

  // ---- a resend ------------------------------------------------------------------------------------------------------

  /**
   A resend goes out exactly for a started delivery with a token and room for the message: logged under the new
   number, or the old one if there is no new one, which is saved, and sent there. Else nothing happens.
   */
  lemma ResendAlone(
      cfg: Settings, s: State, p: Pid, d: DeliveryId, newPhone: Option<(Phone, bool)>, limits: Limits, now: Time)
    requires p !in s.procs && d in s.db.deliveries && s.db.deliveries[d].shop !in s.shopLock
    ensures var row := s.db.deliveries[d];
            var phone, risky := if newPhone.Some? then newPhone.value.0 else row.phone, if newPhone.Some? then newPhone.value.1 else row.risky;
            var s' := Continue(cfg, s, [BeginResend(p, d, newPhone)] + Reserving(p, row.shop, limits, now, now));
            if Noted(s.db, d, OnTheWayNote) && d in s.db.tokens
               && Verdict(cfg, limits, s.db.rows, Request(row.shop, Some(d), phone, Resend, risky), now).None?
            then
              && s'.db.rows == s.db.rows + [Row(row.shop, Some(d), phone, Resend, now)]
              && s'.db.deliveries == s.db.deliveries[d := row.(phone := phone, risky := risky)]
              && s'.db.tokens == s.db.tokens && s'.db.notes == s.db.notes
              && s'.calls == s.calls + [|s.db.rows|] && s'.numbers == s.numbers + [phone]
            else Untouched(s, s')
  {
    var row := s.db.deliveries[d];
    var a, b := [BeginResend(p, d, newPhone)], Reserving(p, row.shop, limits, now, now);
    CountedIsThere(s.db.notes, Note(d, OnTheWayNote));
    ContinueAll(cfg, s, a, b);
    OneStep(cfg, s, a[0]);
    var s1 := Step(cfg, s, a[0]);
    hide Verdict, CountNotes, Continue;
    if s1.procs[p].Ready? {
      Reserves(cfg, s1, p, s1.procs[p].job, s1.procs[p].q, limits, now, now);
    } else {
      QuitReserving(cfg, s1, p, row.shop, limits, now, now);
    }
  }

  // ---- a rating request ------------------------------------------------------------------------------------------------

  /** A rating request goes out exactly where there is none, to a recipient who has a token and did not opt out. */
  lemma RatingAlone(cfg: Settings, s: State, p: Pid, d: DeliveryId, optedOut: bool, limits: Limits, now: Time)
    requires p !in s.procs && d in s.db.deliveries && s.db.deliveries[d].shop !in s.shopLock
    ensures var row := s.db.deliveries[d];
            var s' := Continue(cfg, s, [BeginRating(p, d, optedOut)] + Reserving(p, row.shop, limits, now, now));
            if !Noted(s.db, d, RatingNote) && d in s.db.tokens && !optedOut
               && Verdict(cfg, limits, s.db.rows, Request(row.shop, Some(d), row.phone, RatingRequest, row.risky), now).None?
            then
              && s'.db.rows == s.db.rows + [Row(row.shop, Some(d), row.phone, RatingRequest, now)]
              && s'.db.notes == s.db.notes + [Note(d, RatingNote)]
              && s'.db.deliveries == s.db.deliveries && s'.db.tokens == s.db.tokens
              && s'.calls == s.calls + [|s.db.rows|] && s'.numbers == s.numbers + [row.phone]
            else Untouched(s, s')
  {
    var row := s.db.deliveries[d];
    var a, b := [BeginRating(p, d, optedOut)], Reserving(p, row.shop, limits, now, now);
    CountedIsThere(s.db.notes, Note(d, RatingNote));
    ContinueAll(cfg, s, a, b);
    OneStep(cfg, s, a[0]);
    var s1 := Step(cfg, s, a[0]);
    hide Verdict, CountNotes, Continue;
    if s1.procs[p].Ready? {
      Reserves(cfg, s1, p, s1.procs[p].job, s1.procs[p].q, limits, now, now);
    } else {
      QuitReserving(cfg, s1, p, row.shop, limits, now, now);
    }
  }

  // ---- a start -----------------------------------------------------------------------------------------------------------

  /** A start up to the lock on its delivery. */
  function Approach(p: Pid, d: DeliveryId, stale: Status, manualEta: Option<Time>, found: Option<Time>): seq<Action> {
    [BeginStart(p, d, stale, manualEta), Route(p, found), LockDelivery(p)]
  }

  lemma ThreeSteps(cfg: Settings, s: State, a: seq<Action>)
    requires |a| == 3
    ensures Continue(cfg, s, a) == Step(cfg, Step(cfg, Step(cfg, s, a[0]), a[1]), a[2])
  {
    hide Step;
    assert a == [a[0], a[1]] + [a[2]];
    ContinueAll(cfg, s, [a[0], a[1]], [a[2]]);
    TwoSteps(cfg, s, a[0], a[1]);
    OneStep(cfg, Step(cfg, Step(cfg, s, a[0]), a[1]), a[2]);
  }

  lemma Approaches(
      cfg: Settings, s: State, p: Pid, d: DeliveryId, stale: Status, manualEta: Option<Time>, found: Option<Time>)
    requires p !in s.procs && d in s.db.deliveries && d !in s.deliveryLock
    ensures var s' := Continue(cfg, s, Approach(p, d, stale, manualEta, found));
            var row, eta := s.db.deliveries[d], if manualEta.Some? then manualEta else found;
            && Untouched(s, s') && s'.shopLock == s.shopLock && p in s'.procs
            && (if stale != OnTheWayStatus && row.status != OnTheWayStatus && !Noted(s.db, d, OnTheWayNote) && eta.Some?
                then s'.procs[p] == Ready(ForStart(d, eta.value), Request(row.shop, Some(d), row.phone, OnTheWay, row.risky))
                else s'.procs[p].Quit?)
  {
    hide Step, Continue, Noted;
    ThreeSteps(cfg, s, Approach(p, d, stale, manualEta, found));
    var s1 := Step(cfg, s, BeginStart(p, d, stale, manualEta));
    Begins(cfg, s, p, d, stale, manualEta);
    Routes(cfg, s1, p, d, manualEta, found);
    Locks(cfg, Step(cfg, s1, Route(p, found)), p, d);
  }

  lemma Begins(cfg: Settings, s: State, p: Pid, d: DeliveryId, stale: Status, manualEta: Option<Time>)
    requires p !in s.procs && d in s.db.deliveries
    ensures var s' := Step(cfg, s, BeginStart(p, d, stale, manualEta));
            && Untouched(s, s') && s'.shopLock == s.shopLock && s'.deliveryLock == s.deliveryLock && p in s'.procs
            && s'.procs[p] == if stale == OnTheWayStatus || Noted(s.db, d, OnTheWayNote) then Quit(Already) else Fresh(d, manualEta)
  {
    CountedIsThere(s.db.notes, Note(d, OnTheWayNote));
    hide CountNotes;
  }

  lemma Routes(cfg: Settings, s: State, p: Pid, d: DeliveryId, manualEta: Option<Time>, found: Option<Time>)
    requires p in s.procs && (s.procs[p].Quit? || s.procs[p] == Fresh(d, manualEta))
    ensures var s', eta := Step(cfg, s, Route(p, found)), if manualEta.Some? then manualEta else found;
            && Untouched(s, s') && s'.shopLock == s.shopLock && s'.deliveryLock == s.deliveryLock && p in s'.procs
            && (if s.procs[p].Quit? then s' == s
                else if eta.Some? then s'.procs[p] == Routed(d, eta.value) else s'.procs[p] == Quit(NeedsEta))
  {
  }

  lemma Locks(cfg: Settings, s: State, p: Pid, d: DeliveryId)
    requires d in s.db.deliveries && d !in s.deliveryLock
    requires p in s.procs && (s.procs[p].Quit? || (s.procs[p].Routed? && s.procs[p].d == d))
    ensures var s', row := Step(cfg, s, LockDelivery(p)), s.db.deliveries[d];
            && Untouched(s, s') && s'.shopLock == s.shopLock && p in s'.procs
            && (if s.procs[p].Quit? then s' == s
                else if row.status == OnTheWayStatus || Noted(s.db, d, OnTheWayNote) then s'.procs[p] == Quit(Already)
                else s'.procs[p] == Ready(ForStart(d, s.procs[p].eta), Request(row.shop, Some(d), row.phone, OnTheWay, row.risky)))
  {
    CountedIsThere(s.db.notes, Note(d, OnTheWayNote));
    hide CountNotes;
  }

  /**
   A start goes out exactly for a delivery that is not on the way, on the copy or on the locked row, has no
   notification yet and an arrival time, the shop's own before the route's, with room for the message.
   */
  lemma StartAlone(
      cfg: Settings, s: State, p: Pid, d: DeliveryId, stale: Status, manualEta: Option<Time>, found: Option<Time>,
      limits: Limits, now: Time, startedAt: Time)
    requires p !in s.procs && d in s.db.deliveries && d !in s.deliveryLock && s.db.deliveries[d].shop !in s.shopLock
    ensures var row, eta := s.db.deliveries[d], if manualEta.Some? then manualEta else found;
            var s' := Continue(cfg, s, Approach(p, d, stale, manualEta, found) + Reserving(p, row.shop, limits, now, startedAt));
            if stale != OnTheWayStatus && row.status != OnTheWayStatus && !Noted(s.db, d, OnTheWayNote) && eta.Some?
               && Verdict(cfg, limits, s.db.rows, Request(row.shop, Some(d), row.phone, OnTheWay, row.risky), now).None?
            then
              && s'.db.rows == s.db.rows + [Row(row.shop, Some(d), row.phone, OnTheWay, now)]
              && s'.db.notes == s.db.notes + [Note(d, OnTheWayNote)]
              && s'.db.deliveries == s.db.deliveries[d := row.(status := OnTheWayStatus, startedAt := Some(startedAt), etaAt := eta)]
              && s'.db.tokens == s.db.tokens + {d}
              && s'.calls == s.calls + [|s.db.rows|] && s'.numbers == s.numbers + [row.phone]
            else Untouched(s, s')
  {
    var row := s.db.deliveries[d];
    var a, b := Approach(p, d, stale, manualEta, found), Reserving(p, row.shop, limits, now, startedAt);
    ContinueAll(cfg, s, a, b);
    Approaches(cfg, s, p, d, stale, manualEta, found);
    var s1 := Continue(cfg, s, a);
    hide Verdict, Continue, Noted, Approach;
    if s1.procs[p].Ready? {
      Reserves(cfg, s1, p, s1.procs[p].job, s1.procs[p].q, limits, now, startedAt);
    } else {
      QuitReserving(cfg, s1, p, row.shop, limits, now, startedAt);
    }
  }
}
