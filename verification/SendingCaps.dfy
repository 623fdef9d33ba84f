/**
 The caps of notifications/quotas.py over whole runs of the sending protocol. Only the shop row is
 locked between a check and its commit, so what a shop or a delivery may send is exact under every
 interleaving, while the caps for one number and for the whole service can be passed by as many rows
 as there are other reservations between their check and their commit. Clock readings are arbitrary.
 */
module SendingCaps {
  import opened Prelude
  import opened Calendar
  import opened Deliveries
  import opened Quotas
  import opened Sending
  import opened SendingOnce
  import opened SendingRuns

  // ---- one argument for every cap ------------------------------------------------------------------

  predicate IsCapped(f: Filter) {
    f.ShopOnDay? || f.ShopInMonth? || f.PhoneOnDay? || f.AllOnDay? || (f.OfDelivery? && f.kind == Resend)
  }

  /** The cap a check with these limits applies to the rows `f` counts. */
  function CapOf(cfg: Settings, limits: Limits, f: Filter): nat
    requires IsCapped(f)
  {
    match f
    case ShopOnDay(_, _) => limits.day
    case ShopInMonth(_, _) => limits.month
    case PhoneOnDay(_, _) => cfg.recipientDay
    case AllOnDay(_) => cfg.globalDay
    case OfDelivery(_, _) => cfg.resends
  }

  predicate IsAbout(f: Filter, shop: ShopId) {
    (f.ShopOnDay? || f.ShopInMonth?) ==> f.shop == shop
  }

  /** Every check of the run that can concern `f` applies a cap of at most `cap` to it. */
  ghost predicate CapsWithin(cfg: Settings, actions: seq<Action>, f: Filter, cap: nat)
    requires IsCapped(f)
  {
    forall i :: 0 <= i < |actions| && actions[i].CheckLimits? && IsAbout(f, actions[i].shop) ==>
      CapOf(cfg, actions[i].limits, f) <= cap
  }

  /** Reservations between their check and their commit. */
  function InFlight(s: State): set<Pid> {
    set p | p in s.procs && s.procs[p].Cleared?
  }

  function Pending(s: State, f: Filter): set<Pid> {
    set p | p in InFlight(s) && Matches(f, RowOf(s.procs[p].q, s.procs[p].now))
  }

  ghost predicate AtMostPending(cfg: Settings, deliveries: map<DeliveryId, Delivery>, actions: seq<Action>,
                                f: Filter, k: nat) {
    forall n :: 0 <= n <= |actions| ==> |Pending(Run(cfg, deliveries, actions[..n]), f)| <= k
  }

  lemma PassedBelowCap(cfg: Settings, limits: Limits, rows: seq<Row>, q: Request, now: Time, f: Filter)
    requires IsCapped(f) && Matches(f, RowOf(q, now)) && Verdict(cfg, limits, rows, q, now).None?
    ensures IsAbout(f, q.shop) && CountRows(rows, f) < CapOf(cfg, limits, f)
  {
    hide Verdict, CountRows;
    AcceptedHasRoom(cfg, limits, rows, q, now);
  }

  predicate Passes(cfg: Settings, s: State, a: Action)
    requires Enabled(s, a)
  {
    a.CheckLimits? && Verdict(cfg, a.limits, s.db.rows, s.procs[a.p].q, s.procs[a.p].now).None?
  }

  /** A passed check finds room; whatever else a step does, it moves at most one reservation into the log. */
  lemma StepKeepsSum(cfg: Settings, s: State, a: Action, f: Filter, cap: nat)
    requires Enabled(s, a) && IsCapped(f)
    requires a.CheckLimits? && IsAbout(f, a.shop) ==> CapOf(cfg, a.limits, f) <= cap
    ensures var s' := Do(cfg, s, a);
            var sum, sum' := CountRows(s.db.rows, f) + |Pending(s, f)|, CountRows(s'.db.rows, f) + |Pending(s', f)|;
            sum' <= sum || (s'.db.rows == s.db.rows && CountRows(s.db.rows, f) < cap)
  {
    hide Verdict, CountRows, AlreadyStarted, HasNote, Matches, CommitJob, CapOf, IsAbout, IsCapped, Pending;
    if a.Commit? {
      CommitKeepsSum(cfg, s, a.p, a.startedAt, f);
    } else if Passes(cfg, s, a) && Matches(f, RowOf(s.procs[a.p].q, s.procs[a.p].now)) {
      PassedBelowCap(cfg, a.limits, s.db.rows, s.procs[a.p].q, s.procs[a.p].now, f);
    } else {
      OtherAddsNoPending(cfg, s, a, f);
      SubsetIsSmaller(Pending(Do(cfg, s, a), f), Pending(s, f));
    }
  }

  lemma OtherAddsNoPending(cfg: Settings, s: State, a: Action, f: Filter)
    requires Enabled(s, a) && !a.Commit?
    requires !(Passes(cfg, s, a) && Matches(f, RowOf(s.procs[a.p].q, s.procs[a.p].now)))
    ensures Pending(Do(cfg, s, a), f) <= Pending(s, f) && Do(cfg, s, a).db.rows == s.db.rows
  {
    hide Verdict, AlreadyStarted, HasNote, Matches;
  }

  lemma CommitKeepsSum(cfg: Settings, s: State, p: Pid, startedAt: Time, f: Filter)
    requires Enabled(s, Commit(p, startedAt))
    ensures var s' := Do(cfg, s, Commit(p, startedAt));
            CountRows(s'.db.rows, f) + |Pending(s', f)| == CountRows(s.db.rows, f) + |Pending(s, f)|
  {
    hide CountRows, Matches, Do, Enabled, CommitJob;
    CommitEffect(cfg, s, p, startedAt);
    CommitAddsRow(s.db, s.procs[p].job, s.procs[p].q, s.procs[p].now, startedAt);
    var s', row := Do(cfg, s, Commit(p, startedAt)), RowOf(s.procs[p].q, s.procs[p].now);
    CountAppend(s.db.rows, row, f);
    assert Pending(s', f) == Pending(s, f) - {p};
    assert p in Pending(s, f) <==> Matches(f, row);
  }

  lemma NothingAtStart(deliveries: map<DeliveryId, Delivery>, f: Filter)
    ensures Pending(Start(deliveries), f) == {}
  {
  }

  /** With at most `k` matching reservations in flight at a time, a cap is passed by less than `k`. */
  lemma {:induction false} CapHolds(
      cfg: Settings, deliveries: map<DeliveryId, Delivery>, actions: seq<Action>, f: Filter, cap: nat, k: nat)
    requires IsCapped(f) && CapsWithin(cfg, actions, f, cap)
    requires k >= 1 && AtMostPending(cfg, deliveries, actions, f, k)
    ensures var s := Run(cfg, deliveries, actions);
            CountRows(s.db.rows, f) + |Pending(s, f)| <= cap + k - 1
  {
    hide Do, Enabled, CapOf, IsAbout, IsCapped, Pending;
    if actions == [] {
      NothingAtStart(deliveries, f);
    } else {
      var front, a := actions[..|actions| - 1], actions[|actions| - 1];
      assert forall n :: 0 <= n <= |front| ==> front[..n] == actions[..n];
      CapHolds(cfg, deliveries, front, f, cap, k);
      var s := Run(cfg, deliveries, front);
      assert actions[..|actions|] == actions;
      if Enabled(s, a) {
        StepKeepsSum(cfg, s, a, f, cap);
      }
    }
  }

  // ---- shops and deliveries: exact -----------------------------------------------------------------

  /** One shop, one reservation in flight. */
  lemma OneInShop(s: State, p: Pid, o: Pid)
    requires Locked(s) && p in InFlight(s) && o in InFlight(s) && s.procs[p].q.shop == s.procs[o].q.shop
    ensures p == o
  {
    var shop := s.procs[p].q.shop;
    assert HoldsShop(s.procs[p], shop) && HoldsShop(s.procs[o], shop);
    hide HoldsShop, HoldsDelivery;
    assert s.shopLock[shop] == p;
  }

  lemma ShopPending(s: State, f: Filter)
    requires Locked(s) && Fits(s) && (f.ShopOnDay? || f.ShopInMonth? || f.OfDelivery?)
    ensures |Pending(s, f)| <= 1
  {
    forall p, o | p in Pending(s, f) && o in Pending(s, f) ensures p == o {
      assert JobFits(s.db, s.procs[p]) && JobFits(s.db, s.procs[o]);
      OneInShop(s, p, o);
    }
    AtMostOne(Pending(s, f));
  }

  lemma ExactCap(
      cfg: Settings, deliveries: map<DeliveryId, Delivery>, actions: seq<Action>, f: Filter, cap: nat)
    requires IsCapped(f) && CapsWithin(cfg, actions, f, cap)
    requires f.ShopOnDay? || f.ShopInMonth? || f.OfDelivery?
    ensures CountRows(Run(cfg, deliveries, actions).db.rows, f) <= cap
  {
    forall n | 0 <= n <= |actions| ensures |Pending(Run(cfg, deliveries, actions[..n]), f)| <= 1 {
      hide Run, Pending, Locked, Fits;
      RunFits(cfg, deliveries, actions[..n]);
      ShopPending(Run(cfg, deliveries, actions[..n]), f);
    }
    CapHolds(cfg, deliveries, actions, f, cap, 1);
  }

  /** The limits of `shop` never exceed these during the run. */
  ghost predicate LimitsWithin(actions: seq<Action>, shop: ShopId, day: nat, month: nat) {
    forall i :: 0 <= i < |actions| && actions[i].CheckLimits? && actions[i].shop == shop ==>
      actions[i].limits.day <= day && actions[i].limits.month <= month
  }

  /** Under every interleaving, a shop stays within its limits in every day and every month, and so do its calls. */
  lemma ShopStaysWithinLimits(
      cfg: Settings, deliveries: map<DeliveryId, Delivery>, actions: seq<Action>, shop: ShopId, day: nat, month: nat)
    requires LimitsWithin(actions, shop, day, month)
    ensures var s := Run(cfg, deliveries, actions);
            && CallsOwnRows(s)
            && (forall d :: CountCalls(s.calls, s.db.rows, ShopOnDay(shop, d)) <= CountRows(s.db.rows, ShopOnDay(shop, d)) <= day)
            && forall m :: CountCalls(s.calls, s.db.rows, ShopInMonth(shop, m)) <= CountRows(s.db.rows, ShopInMonth(shop, m)) <= month
  {
    hide Run, CountRows, CountCalls, CallsOwnRows;
    CallsInheritCaps(cfg, deliveries, actions, ShopOnDay(shop, 0));
    var s := Run(cfg, deliveries, actions);
    CallsInRange(s);
    forall d ensures CountCalls(s.calls, s.db.rows, ShopOnDay(shop, d)) <= CountRows(s.db.rows, ShopOnDay(shop, d)) <= day {
      ExactCap(cfg, deliveries, actions, ShopOnDay(shop, d), day);
      CallsInheritCaps(cfg, deliveries, actions, ShopOnDay(shop, d));
    }
    forall m ensures CountCalls(s.calls, s.db.rows, ShopInMonth(shop, m)) <= CountRows(s.db.rows, ShopInMonth(shop, m)) <= month {
      ExactCap(cfg, deliveries, actions, ShopInMonth(shop, m), month);
      CallsInheritCaps(cfg, deliveries, actions, ShopInMonth(shop, m));
    }
  }

  lemma CallsInRange(s: State)
    requires CallsOwnRows(s)
    ensures forall i :: 0 <= i < |s.calls| ==> s.calls[i] < |s.db.rows|
  {
  }

  /** No delivery is ever resent more often than the resend cap. */
  lemma ResendsStayWithinCap(
      cfg: Settings, deliveries: map<DeliveryId, Delivery>, actions: seq<Action>, d: DeliveryId)
    ensures var s := Run(cfg, deliveries, actions);
            && CallsOwnRows(s)
            && CountCalls(s.calls, s.db.rows, OfDelivery(d, Resend)) <= CountRows(s.db.rows, OfDelivery(d, Resend)) <= cfg.resends
  {
    ExactCap(cfg, deliveries, actions, OfDelivery(d, Resend), cfg.resends);
    CallsInheritCaps(cfg, deliveries, actions, OfDelivery(d, Resend));
  }

  // ---- one number and the whole service: exact up to concurrency ---------------------------------------

  ghost predicate AtMostInFlight(
      cfg: Settings, deliveries: map<DeliveryId, Delivery>, actions: seq<Action>, k: nat) {
    forall n :: 0 <= n <= |actions| ==> |InFlight(Run(cfg, deliveries, actions[..n]))| <= k
  }

  /**
   With never more than `k` reservations between check and commit, the rows of a day pass the cap of the
   service, and of any phone number, by less than `k`. A serial run (`k == 1`) keeps both exactly.
   */
  lemma SharedCapsUpToConcurrency(
      cfg: Settings, deliveries: map<DeliveryId, Delivery>, actions: seq<Action>, k: nat, phone: Phone, day: nat)
    requires k >= 1 && AtMostInFlight(cfg, deliveries, actions, k)
    ensures var rows := Run(cfg, deliveries, actions).db.rows;
            && CountRows(rows, AllOnDay(day)) <= cfg.globalDay + k - 1
            && CountRows(rows, PhoneOnDay(phone, day)) <= cfg.recipientDay + k - 1
  {
    forall n, f | 0 <= n <= |actions| ensures |Pending(Run(cfg, deliveries, actions[..n]), f)| <= k {
      hide Run, Matches;
      var s := Run(cfg, deliveries, actions[..n]);
      SubsetIsSmaller(Pending(s, f), InFlight(s));
    }
    hide Pending, Run;
    CapHolds(cfg, deliveries, actions, AllOnDay(day), cfg.globalDay, k);
    CapHolds(cfg, deliveries, actions, PhoneOnDay(phone, day), cfg.recipientDay, k);
  }

  function Shops(deliveries: map<DeliveryId, Delivery>): set<ShopId> {
    set d | d in deliveries :: deliveries[d].shop
  }

  lemma {:induction false} RunSameShops(cfg: Settings, deliveries: map<DeliveryId, Delivery>, actions: seq<Action>)
    ensures SameShops(Start(deliveries).db, Run(cfg, deliveries, actions).db)
  {
    hide Do, Enabled;
    if actions != [] {
      var front, a := actions[..|actions| - 1], actions[|actions| - 1];
      RunSameShops(cfg, deliveries, front);
      RunFits(cfg, deliveries, front);
      if Enabled(Run(cfg, deliveries, front), a) {
        StepKeepsFits(cfg, Run(cfg, deliveries, front), a);
      }
    }
  }

  lemma OnePerShop(s: State, deliveries: map<DeliveryId, Delivery>)
    requires Locked(s) && Fits(s) && SameShops(Start(deliveries).db, s.db)
    ensures |InFlight(s)| <= |Shops(deliveries)|
  {
    var shopOf := map p | p in InFlight(s) :: s.procs[p].q.shop;
    forall p | p in shopOf ensures shopOf[p] in Shops(deliveries) {
      assert JobFits(s.db, s.procs[p]);
    }
    forall p, o | p in shopOf && o in shopOf && shopOf[p] == shopOf[o] ensures p == o {
      OneInShop(s, p, o);
    }
    InjectionFits(shopOf, Shops(deliveries));
    assert shopOf.Keys == InFlight(s);
  }

  lemma InFlightPerShop(cfg: Settings, deliveries: map<DeliveryId, Delivery>, actions: seq<Action>)
    ensures AtMostInFlight(cfg, deliveries, actions, |Shops(deliveries)|)
  {
    forall n | 0 <= n <= |actions|
      ensures |InFlight(Run(cfg, deliveries, actions[..n]))| <= |Shops(deliveries)|
    {
      hide Run, InFlight, Shops, Locked, Fits;
      RunFits(cfg, deliveries, actions[..n]);
      RunSameShops(cfg, deliveries, actions[..n]);
      OnePerShop(Run(cfg, deliveries, actions[..n]), deliveries);
    }
  }

  /** With no assumption about timing: the shop locks leave at most one reservation a shop in flight. */
  lemma SharedCapsUpToShops(
      cfg: Settings, deliveries: map<DeliveryId, Delivery>, actions: seq<Action>, phone: Phone, day: nat)
    requires deliveries != map[]
    ensures var rows, shops := Run(cfg, deliveries, actions).db.rows, |Shops(deliveries)|;
            && CountRows(rows, AllOnDay(day)) <= cfg.globalDay + shops - 1
            && CountRows(rows, PhoneOnDay(phone, day)) <= cfg.recipientDay + shops - 1
  {
    assert |Shops(deliveries)| >= 1 by {
      var d :| d in deliveries;
      assert deliveries[d].shop in Shops(deliveries);
    }
    hide Run, AtMostInFlight;
    InFlightPerShop(cfg, deliveries, actions);
    SharedCapsUpToConcurrency(cfg, deliveries, actions, |Shops(deliveries)|, phone, day);
  }

  // ---- the bound is reached ----------------------------------------------------------------------------

  /**
   `cap - 1` reservations one after the other, then `k` that all check before any of them commits; the former
   are of shop 0, the latter of shops 0 to `k - 1`. To numbers of their own, or all to one.
   */
  datatype Rush = Rush(cfg: Settings, cap: nat, k: nat, spread: bool) {
    predicate Valid() {
      && cap >= 1 && k >= 1 && cfg.recipientDay >= 1
      && (if spread then cap == cfg.globalDay else cap == cfg.recipientDay <= cfg.globalDay)
    }

    function Total(): nat
      requires Valid()
    {
      cap - 1 + k
    }

    function Limits(): Limits {
      Quotas.Limits.Limits(cap, cap, false, false)
    }

    function ShopOf(p: nat): ShopId {
      if p < cap then 0 else p - cap + 1
    }

    function Number(p: nat): Phone {
      if spread then seq(p, _ => '9') else "number"
    }

    function DeliveryOf(p: nat): Delivery {
      Delivery(ShopOf(p), "name", Number(p), false, "address", None, Created, 0, None, None, None, None, None)
    }

    function Deliveries(): map<DeliveryId, Delivery>
      requires Valid()
    {
      map p: nat | p < Total() :: DeliveryOf(p)
    }

    function AskOf(p: Pid): Request {
      Request(ShopOf(p), Some(p), Number(p), OnTheWay, false)
    }

    function ClearedOf(p: Pid): Proc {
      Cleared(ForStart(p, 0), AskOf(p), 0)
    }
  }

  /** Requests `0..n` have passed their checks, and `0..m` of them have committed. */
  ghost predicate Staged(s: State, x: Rush, m: nat, n: nat)
    requires x.Valid()
  {
    && m <= n <= x.Total() && (forall p: nat :: p < x.Total() ==> p in s.db.deliveries)
    && (forall p: nat :: n <= p < x.Total() ==>
         s.db.deliveries[p] == x.DeliveryOf(p) && p !in s.procs && p !in s.deliveryLock)
    && (forall p: nat :: m <= p < n ==> p in s.procs && s.procs[p] == x.ClearedOf(p))
    && (forall shop :: shop in s.shopLock ==> m <= s.shopLock[shop] < n && x.ShopOf(s.shopLock[shop]) == shop)
    && |s.db.rows| == m
    && (forall i :: 0 <= i < m ==> s.db.rows[i].phone == x.Number(i) && s.db.rows[i].createdAt == 0)
    && (forall i :: 0 <= i < |s.db.notes| ==> s.db.notes[i].delivery < m)
  }

  /** Only request `n` has moved, to `proc`, and nothing was committed. */
  ghost predicate OnlyMoved(s: State, s': State, n: nat, proc: Proc, locks: map<ShopId, Pid>) {
    && s'.db == s.db && n in s'.procs && s'.procs[n] == proc && s'.shopLock == locks
    && (forall p :: p != n ==> (p in s'.procs <==> p in s.procs) && (p in s'.deliveryLock <==> p in s.deliveryLock))
    && (forall p :: p != n && p in s.procs ==> s'.procs[p] == s.procs[p])
  }

  /** Request `n` gets past its check. */
  function ToCheck(x: Rush, n: nat): seq<Action> {
    [BeginStart(n, n, Created, Some(0)), Route(n, None), LockDelivery(n), ReadClock(n, 0), LockShop(n),
     CheckLimits(n, x.ShopOf(n), x.Limits())]
  }

  lemma {:induction false} NoSuchNote(notes: seq<Note>, note: Note)
    requires forall i :: 0 <= i < |notes| ==> notes[i] != note
    ensures CountNotes(notes, note) == 0
  {
    if notes != [] {
      NoSuchNote(notes[..|notes| - 1], note);
    }
  }

  lemma ReachLock(s0: State, x: Rush, m: nat, n: nat)
    requires x.Valid() && Staged(s0, x, m, n) && n < x.Total()
    ensures var s1 := Step(x.cfg, s0, BeginStart(n, n, Created, Some(0)));
            var s2 := Step(x.cfg, s1, Route(n, None));
            var s3 := Step(x.cfg, s2, LockDelivery(n));
            OnlyMoved(s0, s3, n, Ready(ForStart(n, 0), x.AskOf(n)), s0.shopLock)
  {
    NoSuchNote(s0.db.notes, Note(n, OnTheWayNote));
    assert !HasNote(s0.db, n, OnTheWayNote);
    hide HasNote, Verdict;
  }

  lemma ReachShop(s0: State, s3: State, x: Rush, n: nat)
    requires OnlyMoved(s0, s3, n, Ready(ForStart(n, 0), x.AskOf(n)), s0.shopLock) && x.ShopOf(n) !in s0.shopLock
    ensures var s4 := Step(x.cfg, s3, ReadClock(n, 0));
            var s5 := Step(x.cfg, s4, LockShop(n));
            OnlyMoved(s0, s5, n, InShop(ForStart(n, 0), x.AskOf(n), 0), s0.shopLock[x.ShopOf(n) := n])
  {
    hide HasNote, Verdict;
  }

  lemma {:induction false} NoSuchPhone(rows: seq<Row>, phone: Phone, from: Time)
    requires forall i :: 0 <= i < |rows| ==> rows[i].phone != phone
    ensures CountRows(rows, PhoneSince(phone, from)) == 0
  {
    if rows != [] {
      NoSuchPhone(rows[..|rows| - 1], phone, from);
    }
  }

  /** With fewer rows than the cap the check passes. */
  lemma RushPasses(x: Rush, rows: seq<Row>, n: nat)
    requires x.Valid() && |rows| < x.cap && |rows| <= n
    requires forall i :: 0 <= i < |rows| ==> rows[i].phone == x.Number(i)
    ensures Verdict(x.cfg, x.Limits(), rows, x.AskOf(n), 0).None?
  {
    var q := x.AskOf(n);
    CountAtMostAll(rows, ShopSince(q.shop, DayStart(0)));
    CountAtMostAll(rows, ShopSince(q.shop, MonthStart(0)));
    CountAtMostAll(rows, AllSince(DayStart(0)));
    CountAtMostAll(rows, PhoneSince(q.phone, DayStart(0)));
    if x.spread {
      forall i | 0 <= i < |rows| ensures rows[i].phone != q.phone {
        assert |rows[i].phone| == i && |q.phone| == n;
      }
      NoSuchPhone(rows, q.phone, DayStart(0));
    }
    hide CountRows, DayStart, MonthStart;
  }

  lemma LimitsPass(s5: State, x: Rush, n: nat)
    requires x.Valid() && |s5.db.rows| < x.cap && |s5.db.rows| <= n
    requires forall i :: 0 <= i < |s5.db.rows| ==> s5.db.rows[i].phone == x.Number(i)
    requires n in s5.procs && s5.procs[n] == InShop(ForStart(n, 0), x.AskOf(n), 0)
    ensures Step(x.cfg, s5, CheckLimits(n, x.ShopOf(n), x.Limits())) == Move(s5, n, x.ClearedOf(n))
  {
    RushPasses(x, s5.db.rows, n);
    hide Verdict;
  }

  lemma PassLimits(s0: State, s5: State, x: Rush, m: nat, n: nat)
    requires x.Valid() && Staged(s0, x, m, n) && n < x.Total() && m < x.cap
    requires x.ShopOf(n) !in s0.shopLock
    requires OnlyMoved(s0, s5, n, InShop(ForStart(n, 0), x.AskOf(n), 0), s0.shopLock[x.ShopOf(n) := n])
    ensures Staged(Step(x.cfg, s5, CheckLimits(n, x.ShopOf(n), x.Limits())), x, m, n + 1)
  {
    hide Step, Move;
    MoveStages(s0, s5, x, m, n);
    LimitsPass(s5, x, n);
  }

  lemma MoveStages(s0: State, s5: State, x: Rush, m: nat, n: nat)
    requires x.Valid() && Staged(s0, x, m, n) && n < x.Total() && m < x.cap
    requires OnlyMoved(s0, s5, n, InShop(ForStart(n, 0), x.AskOf(n), 0), s0.shopLock[x.ShopOf(n) := n])
    ensures Staged(Move(s5, n, x.ClearedOf(n)), x, m, n + 1)
  {
  }

  /** Six steps take request `n` past its check while its shop is free and a cap not reached. */
  lemma PassCheck(s0: State, x: Rush, m: nat, n: nat)
    requires x.Valid() && Staged(s0, x, m, n) && n < x.Total() && m < x.cap && x.ShopOf(n) !in s0.shopLock
    ensures Staged(Continue(x.cfg, s0, ToCheck(x, n)), x, m, n + 1)
  {
    hide Step, Staged, OnlyMoved;
    ReachLock(s0, x, m, n);
    var s3 := Step(x.cfg, Step(x.cfg, Step(x.cfg, s0, BeginStart(n, n, Created, Some(0))), Route(n, None)), LockDelivery(n));
    ReachShop(s0, s3, x, n);
    var s5 := Step(x.cfg, Step(x.cfg, s3, ReadClock(n, 0)), LockShop(n));
    PassLimits(s0, s5, x, m, n);
    SixSteps(x.cfg, s0, ToCheck(x, n));
  }

  lemma CommitStaged(s: State, x: Rush, m: nat, n: nat)
    requires x.Valid() && Staged(s, x, m, n) && m < n
    ensures Staged(Step(x.cfg, s, Commit(m, 0)), x, m + 1, n)
  {
    CommitMoves(x.cfg, s, m, x.AskOf(m));
    hide Step;
    StagedOneMore(s, Step(x.cfg, s, Commit(m, 0)), x, m, n);
  }

  /** Request `m` has left its shop and added its row and note. */
  ghost predicate Committed(s: State, s': State, p: Pid, q: Request) {
    && s'.db.rows == s.db.rows + [RowOf(q, 0)] && s'.db.notes == s.db.notes + [Note(p, OnTheWayNote)]
    && s'.db.deliveries.Keys == s.db.deliveries.Keys
    && (forall d :: d != p && d in s.db.deliveries ==> s'.db.deliveries[d] == s.db.deliveries[d])
    && s'.procs.Keys == s.procs.Keys && (forall o :: o != p && o in s.procs ==> s'.procs[o] == s.procs[o])
    && (forall d :: d in s'.deliveryLock ==> d in s.deliveryLock)
    && (forall y :: y in s'.shopLock ==> y in s.shopLock && s'.shopLock[y] == s.shopLock[y] != p)
  }

  lemma StagedOneMore(s: State, s': State, x: Rush, m: nat, n: nat)
    requires x.Valid() && Staged(s, x, m, n) && m < n && Committed(s, s', m, x.AskOf(m))
    ensures Staged(s', x, m + 1, n)
  {
  }

  lemma CommitMoves(cfg: Settings, s: State, p: Pid, q: Request)
    requires p in s.procs && s.procs[p] == Cleared(ForStart(p, 0), q, 0) && p in s.db.deliveries
    ensures Committed(s, Step(cfg, s, Commit(p, 0)), p, q)
  {
  }

  function Serial(x: Rush, n: nat): seq<Action> {
    if n == 0 then [] else Serial(x, n - 1) + ToCheck(x, n - 1) + [Commit(n - 1, 0)]
  }

  function Checks(x: Rush, from: nat, n: nat): seq<Action> {
    if n == 0 then [] else Checks(x, from, n - 1) + ToCheck(x, from + n - 1)
  }

  function Commits(from: nat, m: nat): seq<Action> {
    if m == 0 then [] else Commits(from, m - 1) + [Commit(from + m - 1, 0)]
  }

  lemma {:induction false} AfterSerial(x: Rush, n: nat)
    requires x.Valid() && n < x.cap
    ensures Staged(Continue(x.cfg, Start(x.Deliveries()), Serial(x, n)), x, n, n)
  {
    hide Step, ToCheck;
    var s := Start(x.Deliveries());
    if n > 0 {
      AfterSerial(x, n - 1);
      ContinueAll(x.cfg, s, Serial(x, n - 1), ToCheck(x, n - 1));
      ContinueAll(x.cfg, s, Serial(x, n - 1) + ToCheck(x, n - 1), [Commit(n - 1, 0)]);
      var s1 := Continue(x.cfg, s, Serial(x, n - 1));
      hide Continue;
      PassCheck(s1, x, n - 1, n - 1);
      var s2 := Continue(x.cfg, s1, ToCheck(x, n - 1));
      OneStep(x.cfg, s2, Commit(n - 1, 0));
      CommitStaged(s2, x, n - 1, n);
    }
  }

  lemma FreeShop(s: State, x: Rush, n: nat)
    requires x.Valid() && x.cap - 1 <= n && Staged(s, x, x.cap - 1, n)
    ensures x.ShopOf(n) !in s.shopLock
  {
  }

  lemma {:induction false} AfterChecks(s: State, x: Rush, n: nat)
    requires x.Valid() && Staged(s, x, x.cap - 1, x.cap - 1) && n <= x.k
    ensures Staged(Continue(x.cfg, s, Checks(x, x.cap - 1, n)), x, x.cap - 1, x.cap - 1 + n)
  {
    hide Step, ToCheck, Staged;
    if n > 0 {
      AfterChecks(s, x, n - 1);
      ContinueAll(x.cfg, s, Checks(x, x.cap - 1, n - 1), ToCheck(x, x.cap - 1 + n - 1));
      var s1 := Continue(x.cfg, s, Checks(x, x.cap - 1, n - 1));
      FreeShop(s1, x, x.cap - 1 + n - 1);
      PassCheck(s1, x, x.cap - 1, x.cap - 1 + n - 1);
    }
  }

  lemma {:induction false} AfterCommits(s: State, x: Rush, m: nat)
    requires x.Valid() && Staged(s, x, x.cap - 1, x.Total()) && m <= x.k
    ensures Staged(Continue(x.cfg, s, Commits(x.cap - 1, m)), x, x.cap - 1 + m, x.Total())
  {
    hide Staged, Step;
    if m > 0 {
      AfterCommits(s, x, m - 1);
      ContinueAll(x.cfg, s, Commits(x.cap - 1, m - 1), [Commit(x.cap - 1 + m - 1, 0)]);
      OneStep(x.cfg, Continue(x.cfg, s, Commits(x.cap - 1, m - 1)), Commit(x.cap - 1 + m - 1, 0));
      CommitStaged(Continue(x.cfg, s, Commits(x.cap - 1, m - 1)), x, x.cap - 1 + m - 1, x.Total());
    }
  }

  function RushActions(x: Rush): seq<Action>
    requires x.Valid()
  {
    Serial(x, x.cap - 1) + Checks(x, x.cap - 1, x.k) + Commits(x.cap - 1, x.k)
  }

  lemma AfterRush(x: Rush)
    requires x.Valid()
    ensures Staged(Run(x.cfg, x.Deliveries(), RushActions(x)), x, x.Total(), x.Total())
  {
    hide Staged, Continue, Run, Serial, Checks, Commits, Start;
    RunIsContinue(x.cfg, x.Deliveries(), RushActions(x));
    ContinueThree(x.cfg, Start(x.Deliveries()), Serial(x, x.cap - 1), Checks(x, x.cap - 1, x.k), Commits(x.cap - 1, x.k));
    AfterSerial(x, x.cap - 1);
    var s := Continue(x.cfg, Start(x.Deliveries()), Serial(x, x.cap - 1));
    AfterChecks(s, x, x.k);
    AfterCommits(Continue(x.cfg, s, Checks(x, x.cap - 1, x.k)), x, x.k);
  }

  lemma {:induction false} AllMatch(rows: seq<Row>, f: Filter)
    requires forall i :: 0 <= i < |rows| ==> Matches(f, rows[i])
    ensures CountRows(rows, f) == |rows|
  {
    hide Matches;
    if rows != [] {
      AllMatch(rows[..|rows| - 1], f);
    }
  }

  lemma RushShops(x: Rush)
    requires x.Valid()
    ensures |Shops(x.Deliveries())| == x.k
  {
    var shops := Shops(x.Deliveries());
    forall y: nat | y < x.k ensures y in shops {
      var p: nat := x.cap - 1 + y;
      assert p < x.Total() && x.ShopOf(p) == y;
      assert p in x.Deliveries();
      assert x.Deliveries()[p].shop == y;
    }
    BelowCount(shops, x.k);
  }

  lemma {:induction false} BelowCount(s: set<nat>, k: nat)
    requires forall y: nat :: y in s <==> y < k
    ensures |s| == k
  {
    if k > 0 {
      BelowCount(s - {k - 1}, k - 1);
    } else {
      assert s == {};
    }
  }

  /** Its shops allow no more in flight. */
  lemma RushInFlight(x: Rush)
    requires x.Valid()
    ensures AtMostInFlight(x.cfg, x.Deliveries(), RushActions(x), x.k)
  {
    RushShops(x);
    InFlightPerShop(x.cfg, x.Deliveries(), RushActions(x));
  }

  /** A run in which at most `k` reservations are ever in flight, and `rows` rows of day 0 match. */
  ghost predicate Reaches(cfg: Settings, f: Filter, k: nat, rows: nat) {
    exists deliveries, actions ::
      && AtMostInFlight(cfg, deliveries, actions, k) && |Shops(deliveries)| == k
      && CountRows(Run(cfg, deliveries, actions).db.rows, f) == rows
  }

  /**
   The bounds are reached, for every caps and every number of reservations in flight (and of shops): the cap of
   the service, and where it is not above that, the cap for one number.
   */
  lemma SharedCapsOvershoot(cfg: Settings, k: nat)
    requires k >= 1 && cfg.globalDay >= 1 && cfg.recipientDay >= 1
    ensures Reaches(cfg, AllOnDay(0), k, cfg.globalDay + k - 1)
    ensures cfg.recipientDay <= cfg.globalDay ==> Reaches(cfg, PhoneOnDay("number", 0), k, cfg.recipientDay + k - 1)
  {
    RushReaches(Rush(cfg, cfg.globalDay, k, true), AllOnDay(0));
    if cfg.recipientDay <= cfg.globalDay {
      RushReaches(Rush(cfg, cfg.recipientDay, k, false), PhoneOnDay("number", 0));
    }
  }

  lemma RushReaches(x: Rush, f: Filter)
    requires x.Valid() && f == if x.spread then AllOnDay(0) else PhoneOnDay("number", 0)
    ensures Reaches(x.cfg, f, x.k, x.cap + x.k - 1)
  {
    AfterRush(x);
    RushShops(x);
    RushInFlight(x);
    var rows := Run(x.cfg, x.Deliveries(), RushActions(x)).db.rows;
    assert forall i :: 0 <= i < |rows| ==> Matches(f, rows[i]);
    AllMatch(rows, f);
    hide Run, CountRows, AtMostInFlight, Shops, RushActions;
  }
}
