/**
 The sending protocol of deliveries/services.py and notifications/quotas.py as a state machine: any
 number of start, resend and rating requests, each advancing one step at a time, on the committed
 database and two kinds of row locks. A crash can end a request between any two steps, and the erasure of
 recipient data (deliveries/retention.py) can take a delivery that nobody has locked.
 */
module Sending {
  import opened Prelude
  import opened Calendar
  import opened Deliveries
  import opened Quotas
  import Retention

  type Pid = nat

  datatype NoteKind = OnTheWayNote | RatingNote

  datatype Note = Note(delivery: DeliveryId, kind: NoteKind)

  /** What is committed. Notifications and log rows are only ever added. */
  datatype Db = Db(deliveries: map<DeliveryId, Delivery>, tokens: set<DeliveryId>, notes: seq<Note>, rows: seq<Row>)

  datatype Job =
    | ForStart(d: DeliveryId, eta: Time)
    | ForResend(d: DeliveryId, newPhone: Option<(Phone, bool)>)
    | ForRating(d: DeliveryId)

  datatype Outcome = Already | NeedsEta | Nothing | Refused(code: Code) | Crashed

  /** Where a request stands. */
  datatype Proc =
    | Fresh(d: DeliveryId, manualEta: Option<Time>)      // start: the stale copy said "not started"
    | Routed(d: DeliveryId, eta: Time)                   // start: the arrival time is known
    | Ready(job: Job, q: Request)                        // about to reserve; a start holds its delivery row
    | Asked(job: Job, q: Request, now: Time)             // reserve_send has read the clock
    | InShop(job: Job, q: Request, now: Time)            // holds the shop row
    | Cleared(job: Job, q: Request, now: Time)           // passed every check, not committed
    | Logged(job: Job, q: Request, row: nat)             // committed
    | Saved(job: Job, q: Request, row: nat)              // notification ready, provider not called
    | Called(job: Job, q: Request, row: nat)
    | Quit(outcome: Outcome)

  /** Of each provider call: the log row it was reserved under, and the number it went to. */
  datatype State = State(
    db: Db, deliveryLock: map<DeliveryId, Pid>, shopLock: map<ShopId, Pid>,
    procs: map<Pid, Proc>, calls: seq<nat>, numbers: seq<Phone>, writers: set<Pid>)

  datatype Action =
    | BeginStart(p: Pid, d: DeliveryId, staleStatus: Status, manualEta: Option<Time>)
    | BeginResend(p: Pid, d: DeliveryId, newPhone: Option<(Phone, bool)>)
    | BeginRating(p: Pid, d: DeliveryId, optedOut: bool)
    | Route(p: Pid, found: Option<Time>)
    | LockDelivery(p: Pid)
    | ReadClock(p: Pid, now: Time)
    | LockShop(p: Pid)
    | CheckLimits(p: Pid, shop: ShopId, limits: Limits)
    | Commit(p: Pid, startedAt: Time)
    | Save(p: Pid)
    | Call(p: Pid)
    | Crash(p: Pid)
    | Edit(d: DeliveryId, status: Status, phone: Phone, risky: bool)
    | Purge(d: DeliveryId, cutoff: int, now: Time)

  /** A step of a request, as opposed to an edit or the erasure of a row. */
  predicate IsRequest(a: Action) {
    !a.Edit? && !a.Purge?
  }

  // ---- the database operations -----------------------------------------------------------------

  function CountNotes(notes: seq<Note>, n: Note): nat {
    if notes == [] then 0
    else CountNotes(notes[..|notes| - 1], n) + if notes[|notes| - 1] == n then 1 else 0
  }

  predicate HasNote(db: Db, d: DeliveryId, kind: NoteKind) {
    CountNotes(db.notes, Note(d, kind)) > 0
  }

  /** `_already_started`, on a copy whose status may be out of date. */
  predicate AlreadyStarted(db: Db, d: DeliveryId, status: Status) {
    status == OnTheWayStatus || HasNote(db, d, OnTheWayNote)
  }

  function KindOf(job: Job): Kind {
    match job
    case ForStart(_, _) => OnTheWay
    case ForResend(_, _) => Resend
    case ForRating(_) => RatingRequest
  }

  /** What one commit writes: the log row, and for a start everything the start changes. */
  function CommitJob(db: Db, job: Job, q: Request, now: Time, startedAt: Time): Db
    requires job.d in db.deliveries
  {
    var db' := db.(rows := db.rows + [RowOf(q, now)]);
    if job.ForStart? then
      db'.(deliveries := db.deliveries[job.d := db.deliveries[job.d].(
             status := OnTheWayStatus, startedAt := Some(startedAt), etaAt := Some(job.eta))],
           tokens := db.tokens + {job.d},
           notes := db.notes + [Note(job.d, OnTheWayNote)])
    else db'
  }

  /** What is saved between the commit and the provider call. */
  function SaveJob(db: Db, job: Job): Db
    requires job.d in db.deliveries
  {
    match job
    case ForStart(_, _) => db
    case ForResend(d, newPhone) =>
      if newPhone.None? then db
      else db.(deliveries := db.deliveries[d := db.deliveries[d].(phone := newPhone.value.0, risky := newPhone.value.1)])
    case ForRating(d) => db.(notes := db.notes + [Note(d, RatingNote)])
  }

  /** The purge of one delivery: its recipient's data and its token go. */
  function Erase(db: Db, d: DeliveryId, now: Time): Db
    requires d in db.deliveries
  {
    db.(deliveries := db.deliveries[d := Retention.EraseRecipient(db.deliveries[d], now)], tokens := db.tokens - {d})
  }

  // ---- steps -------------------------------------------------------------------------------------

  predicate HoldsDelivery(proc: Proc, d: DeliveryId) {
    (proc.Ready? || proc.Asked? || proc.InShop? || proc.Cleared?) && proc.job.ForStart? && proc.job.d == d
  }

  predicate HoldsShop(proc: Proc, shop: ShopId) {
    (proc.InShop? || proc.Cleared?) && proc.q.shop == shop
  }

  predicate Enabled(s: State, a: Action) {
    match a
    case BeginStart(p, d, _, _) => p !in s.procs && d in s.db.deliveries
    case BeginResend(p, d, _) => p !in s.procs && d in s.db.deliveries
    case BeginRating(p, d, _) => p !in s.procs && d in s.db.deliveries
    case Route(p, _) => p in s.procs && s.procs[p].Fresh?
    case LockDelivery(p) =>
      p in s.procs && s.procs[p].Routed? && s.procs[p].d !in s.deliveryLock && s.procs[p].d in s.db.deliveries
    case ReadClock(p, _) => p in s.procs && s.procs[p].Ready?
    case LockShop(p) => p in s.procs && s.procs[p].Asked? && s.procs[p].q.shop !in s.shopLock
    case CheckLimits(p, shop, _) => p in s.procs && s.procs[p].InShop? && s.procs[p].q.shop == shop
    case Commit(p, _) => p in s.procs && s.procs[p].Cleared? && s.procs[p].job.d in s.db.deliveries
    case Save(p) => p in s.procs && s.procs[p].Logged? && s.procs[p].job.d in s.db.deliveries
    case Call(p) => p in s.procs && s.procs[p].Saved?
    case Crash(p) => p in s.procs && !s.procs[p].Quit? && !s.procs[p].Called?
    case Edit(d, _, _, _) => d in s.db.deliveries
    case Purge(d, cutoff, _) =>
      d in s.db.deliveries && d !in s.deliveryLock && Retention.IsDue(s.db.deliveries[d], cutoff)
  }

  /** The request `p` moves on, keeping its locks. */
  function Move(s: State, p: Pid, proc: Proc): State {
    s.(procs := s.procs[p := proc])
  }

  /** The transaction of `p` is over, with `db` committed. */
  function Finish(s: State, p: Pid, proc: Proc, db: Db): State {
    State(db,
          map d | d in s.deliveryLock && s.deliveryLock[d] != p :: s.deliveryLock[d],
          map x | x in s.shopLock && s.shopLock[x] != p :: s.shopLock[x],
          s.procs[p := proc], s.calls, s.numbers,
          if db != s.db then s.writers + {p} else s.writers)
  }

  function Do(cfg: Settings, s: State, a: Action): State
    requires Enabled(s, a)
  {
    match a
    case BeginStart(p, d, staleStatus, manualEta) =>
      Move(s, p, if AlreadyStarted(s.db, d, staleStatus) then Quit(Already) else Fresh(d, manualEta))
    case BeginResend(p, d, newPhone) =>
      var row := s.db.deliveries[d];
      var (phone, risky) := if newPhone.Some? then newPhone.value else (row.phone, row.risky);
      Move(s, p,
           if HasNote(s.db, d, OnTheWayNote) && d in s.db.tokens
           then Ready(ForResend(d, newPhone), Request(row.shop, Some(d), phone, Resend, risky))
           else Quit(Nothing))
    case BeginRating(p, d, optedOut) =>
      Move(s, p,
           if HasNote(s.db, d, RatingNote) || d !in s.db.tokens || optedOut then Quit(Nothing)
           else
             var row := s.db.deliveries[d];
             Ready(ForRating(d), Request(row.shop, Some(d), row.phone, RatingRequest, row.risky)))
    case Route(p, found) =>
      var proc := s.procs[p];
      var eta := if proc.manualEta.Some? then proc.manualEta else found;
      Move(s, p, if eta.Some? then Routed(proc.d, eta.value) else Quit(NeedsEta))
    case LockDelivery(p) =>
      var d, row := s.procs[p].d, s.db.deliveries[s.procs[p].d];
      if AlreadyStarted(s.db, d, row.status) then Move(s, p, Quit(Already))
      else
        Move(s, p, Ready(ForStart(d, s.procs[p].eta), Request(row.shop, Some(d), row.phone, OnTheWay, row.risky)))
        .(deliveryLock := s.deliveryLock[d := p])
    case ReadClock(p, now) => Move(s, p, Asked(s.procs[p].job, s.procs[p].q, now))
    case LockShop(p) =>
      var proc := s.procs[p];
      Move(s, p, InShop(proc.job, proc.q, proc.now)).(shopLock := s.shopLock[proc.q.shop := p])
    case CheckLimits(p, _, limits) =>
      var proc := s.procs[p];
      var refusal := Verdict(cfg, limits, s.db.rows, proc.q, proc.now);
      if refusal.Some? then Finish(s, p, Quit(Refused(refusal.value)), s.db)
      else Move(s, p, Cleared(proc.job, proc.q, proc.now))
    case Commit(p, startedAt) =>
      var proc := s.procs[p];
      Finish(s, p, Logged(proc.job, proc.q, |s.db.rows|), CommitJob(s.db, proc.job, proc.q, proc.now, startedAt))
    case Save(p) => Finish(s, p, Saved(s.procs[p].job, s.procs[p].q, s.procs[p].row), SaveJob(s.db, s.procs[p].job))
    case Call(p) =>
      Move(s, p, Called(s.procs[p].job, s.procs[p].q, s.procs[p].row))
      .(calls := s.calls + [s.procs[p].row], numbers := s.numbers + [s.procs[p].q.phone])
    case Crash(p) => Finish(s, p, Quit(Crashed), s.db)
    case Edit(d, status, phone, risky) =>
      s.(db := s.db.(deliveries := s.db.deliveries[d := s.db.deliveries[d].(status := status, phone := phone, risky := risky)]))
    case Purge(d, _, now) => s.(db := Erase(s.db, d, now))
  }

  function Start(deliveries: map<DeliveryId, Delivery>): State {
    State(Db(deliveries, {}, [], []), map[], map[], map[], [], [], {})
  }

  /** The state after a run; an action that is not enabled is skipped. */
  function Run(cfg: Settings, deliveries: map<DeliveryId, Delivery>, actions: seq<Action>): State {
    if actions == [] then Start(deliveries)
    else
      var s := Run(cfg, deliveries, actions[..|actions| - 1]);
      var a := actions[|actions| - 1];
      if Enabled(s, a) then Do(cfg, s, a) else s
  }

  // ---- locks and requests fit together --------------------------------------------------------------

  predicate Underway(proc: Proc) {
    proc.Ready? || proc.Asked? || proc.InShop? || proc.Cleared?
  }

  predicate JobFits(db: Db, proc: Proc) {
    && (Underway(proc) ==>
         && proc.job.d in db.deliveries && proc.q.delivery == Some(proc.job.d)
         && proc.q.shop == db.deliveries[proc.job.d].shop && proc.q.kind == KindOf(proc.job))
    && (proc.Logged? || proc.Saved? || proc.Called? ==> proc.job.d in db.deliveries)
  }

  predicate RowFits(db: Db, r: Row) {
    r.delivery.Some? && r.delivery.value in db.deliveries && r.shop == db.deliveries[r.delivery.value].shop
  }

  ghost predicate Locked(s: State) {
    && (forall p, d :: p in s.procs && HoldsDelivery(s.procs[p], d) ==> d in s.deliveryLock && s.deliveryLock[d] == p)
    && forall p, x :: p in s.procs && HoldsShop(s.procs[p], x) ==> x in s.shopLock && s.shopLock[x] == p
  }

  ghost predicate Fits(s: State) {
    && (forall p :: p in s.procs ==> JobFits(s.db, s.procs[p]))
    && forall i :: 0 <= i < |s.db.rows| ==> RowFits(s.db, s.db.rows[i])
  }

  lemma MoveKeepsLocked(s: State, p: Pid, proc: Proc)
    requires Locked(s)
    requires forall d :: HoldsDelivery(proc, d) ==> p in s.procs && HoldsDelivery(s.procs[p], d)
    requires forall x :: HoldsShop(proc, x) ==> p in s.procs && HoldsShop(s.procs[p], x)
    ensures Locked(Move(s, p, proc))
  {
  }

  lemma FinishKeepsLocked(s: State, p: Pid, proc: Proc, db: Db)
    requires Locked(s) && (proc.Logged? || proc.Saved? || proc.Quit?)
    ensures Locked(Finish(s, p, proc, db))
  {
    hide HoldsDelivery, HoldsShop;
    NoLocks(proc);
  }

  lemma NoLocks(proc: Proc)
    requires !Underway(proc)
    ensures forall d :: !HoldsDelivery(proc, d)
    ensures forall x :: !HoldsShop(proc, x)
  {
  }

  predicate Finishes(cfg: Settings, s: State, a: Action)
    requires Enabled(s, a)
  {
    || a.Commit? || a.Save? || a.Crash?
    || (a.CheckLimits? && Verdict(cfg, a.limits, s.db.rows, s.procs[a.p].q, s.procs[a.p].now).Some?)
  }

  lemma FinishStepKeepsLocked(cfg: Settings, s: State, a: Action)
    requires Locked(s) && Enabled(s, a) && Finishes(cfg, s, a)
    ensures Locked(Do(cfg, s, a))
  {
    hide Verdict, CommitJob, SaveJob, AlreadyStarted, HasNote, Locked, HoldsDelivery, HoldsShop;
    var s' := Do(cfg, s, a);
    FinishKeepsLocked(s, a.p, s'.procs[a.p], s'.db);
  }

  lemma LockStepKeepsLocked(cfg: Settings, s: State, a: Action)
    requires Locked(s) && Enabled(s, a) && (a.LockDelivery? || a.LockShop?)
    ensures Locked(Do(cfg, s, a))
  {
    hide AlreadyStarted, HasNote;
  }

  lemma MoveStepKeepsLocked(cfg: Settings, s: State, a: Action)
    requires Locked(s) && Enabled(s, a) && !Finishes(cfg, s, a) && !a.LockDelivery? && !a.LockShop?
    ensures Locked(Do(cfg, s, a))
  {
    hide Verdict, AlreadyStarted, HasNote, Locked, Finish;
    var s' := Do(cfg, s, a);
    if !IsRequest(a) {
      EditKeepsLocked(s, s'.db);
    } else {
      MoveKeepsLocked(s, a.p, s'.procs[a.p]);
      if a.Call? {
        CallKeepsLocked(Move(s, a.p, s'.procs[a.p]), s'.calls, s'.numbers);
      }
    }
  }

  lemma EditKeepsLocked(s: State, db: Db)
    requires Locked(s)
    ensures Locked(s.(db := db))
  {
  }

  lemma CallKeepsLocked(s: State, calls: seq<nat>, numbers: seq<Phone>)
    requires Locked(s)
    ensures Locked(s.(calls := calls, numbers := numbers))
  {
  }

  lemma StepKeepsLocked(cfg: Settings, s: State, a: Action)
    requires Locked(s) && Enabled(s, a)
    ensures Locked(Do(cfg, s, a))
  {
    hide Do, Enabled, Locked;
    if Finishes(cfg, s, a) {
      FinishStepKeepsLocked(cfg, s, a);
    } else if a.LockDelivery? || a.LockShop? {
      LockStepKeepsLocked(cfg, s, a);
    } else {
      MoveStepKeepsLocked(cfg, s, a);
    }
  }

  /** A lock is held only by a request on its way to a commit; one that committed, quit or crashed holds none. */
  ghost predicate LocksAreHeld(s: State) {
    && (forall d :: d in s.deliveryLock ==> s.deliveryLock[d] in s.procs && HoldsDelivery(s.procs[s.deliveryLock[d]], d))
    && forall x :: x in s.shopLock ==> s.shopLock[x] in s.procs && HoldsShop(s.procs[s.shopLock[x]], x)
  }

  lemma StepHoldsLocks(cfg: Settings, s: State, a: Action)
    requires LocksAreHeld(s) && Enabled(s, a)
    ensures LocksAreHeld(Do(cfg, s, a))
  {
    if Finishes(cfg, s, a) {
      FinishStepHoldsLocks(cfg, s, a);
    } else if a.LockDelivery? || a.LockShop? {
      LockStepHoldsLocks(cfg, s, a);
    } else {
      MoveStepHoldsLocks(cfg, s, a);
    }
    hide *;
  }

  lemma FinishStepHoldsLocks(cfg: Settings, s: State, a: Action)
    requires LocksAreHeld(s) && Enabled(s, a) && Finishes(cfg, s, a)
    ensures LocksAreHeld(Do(cfg, s, a))
  {
    hide Verdict, CommitJob, SaveJob, AlreadyStarted, HasNote, LocksAreHeld, HoldsDelivery, HoldsShop;
    var s' := Do(cfg, s, a);
    FinishHoldsLocks(s, a.p, s'.procs[a.p], s'.db);
  }

  lemma LockStepHoldsLocks(cfg: Settings, s: State, a: Action)
    requires LocksAreHeld(s) && Enabled(s, a) && (a.LockDelivery? || a.LockShop?)
    ensures LocksAreHeld(Do(cfg, s, a))
  {
    hide AlreadyStarted, HasNote;
  }

  lemma MoveStepHoldsLocks(cfg: Settings, s: State, a: Action)
    requires LocksAreHeld(s) && Enabled(s, a) && !Finishes(cfg, s, a) && !a.LockDelivery? && !a.LockShop?
    ensures LocksAreHeld(Do(cfg, s, a))
  {
    hide Verdict, AlreadyStarted, HasNote, Finish;
  }

  lemma FinishHoldsLocks(s: State, p: Pid, proc: Proc, db: Db)
    requires LocksAreHeld(s)
    ensures LocksAreHeld(Finish(s, p, proc, db))
  {
    hide HoldsDelivery, HoldsShop;
  }

  /** Shops and deliveries stay what they are. */
  ghost predicate SameShops(db: Db, db': Db) {
    && db.deliveries.Keys == db'.deliveries.Keys
    && forall d :: d in db.deliveries ==> db'.deliveries[d].shop == db.deliveries[d].shop
  }

  lemma FitsStays(db: Db, db': Db)
    requires SameShops(db, db')
    ensures forall proc :: JobFits(db, proc) ==> JobFits(db', proc)
    ensures forall r :: RowFits(db, r) ==> RowFits(db', r)
  {
  }

  lemma CommitKeepsFits(s: State, p: Pid, startedAt: Time)
    requires Fits(s) && p in s.procs && s.procs[p].Cleared?
    ensures var db' := CommitJob(s.db, s.procs[p].job, s.procs[p].q, s.procs[p].now, startedAt);
            SameShops(s.db, db') && forall i :: 0 <= i < |db'.rows| ==> RowFits(db', db'.rows[i])
  {
  }

  lemma CommitEffect(cfg: Settings, s: State, p: Pid, startedAt: Time)
    requires Enabled(s, Commit(p, startedAt))
    ensures p in s.procs && s.procs[p].Cleared? && s.procs[p].job.d in s.db.deliveries
    ensures var s', proc := Do(cfg, s, Commit(p, startedAt)), s.procs[p];
            && s'.db == CommitJob(s.db, proc.job, proc.q, proc.now, startedAt)
            && s'.procs == s.procs[p := Logged(proc.job, proc.q, |s.db.rows|)]
  {
  }

  lemma CommitAddsRow(db: Db, job: Job, q: Request, now: Time, startedAt: Time)
    requires job.d in db.deliveries
    ensures CommitJob(db, job, q, now, startedAt).rows == db.rows + [RowOf(q, now)]
  {
  }

  /** Requests fit the committed rows they were made from. */
  lemma RequestsFit(cfg: Settings, s: State, a: Action)
    requires Fits(s) && Enabled(s, a)
    ensures forall p :: p in Do(cfg, s, a).procs ==> JobFits(s.db, Do(cfg, s, a).procs[p])
  {
    hide Verdict, AlreadyStarted, HasNote, CommitJob, SaveJob;
  }

  lemma StepKeepsShops(cfg: Settings, s: State, a: Action)
    requires Fits(s) && Enabled(s, a)
    ensures var db' := Do(cfg, s, a).db;
            SameShops(s.db, db') && forall i :: 0 <= i < |db'.rows| ==> RowFits(db', db'.rows[i])
  {
    if a.Commit? {
      CommitKeepsFits(s, a.p, a.startedAt);
      CommitEffect(cfg, s, a.p, a.startedAt);
    } else {
      hide Verdict, AlreadyStarted, HasNote, JobFits;
      var db' := Do(cfg, s, a).db;
      assert SameShops(s.db, db') && db'.rows == s.db.rows;
      hide Do;
      FitsStays(s.db, db');
    }
  }

  lemma StepKeepsFits(cfg: Settings, s: State, a: Action)
    requires Fits(s) && Enabled(s, a)
    ensures Fits(Do(cfg, s, a)) && SameShops(s.db, Do(cfg, s, a).db)
  {
    RequestsFit(cfg, s, a);
    StepKeepsShops(cfg, s, a);
    hide Do, Enabled, JobFits, RowFits, SameShops;
    FitsStays(s.db, Do(cfg, s, a).db);
  }

  lemma {:induction false} RunFits(cfg: Settings, deliveries: map<DeliveryId, Delivery>, actions: seq<Action>)
    ensures var s := Run(cfg, deliveries, actions); Locked(s) && LocksAreHeld(s) && Fits(s)
  {
    hide Do, Enabled;
    if actions != [] {
      var front, a := actions[..|actions| - 1], actions[|actions| - 1];
      RunFits(cfg, deliveries, front);
      var s := Run(cfg, deliveries, front);
      if Enabled(s, a) {
        StepKeepsLocked(cfg, s, a);
        StepHoldsLocks(cfg, s, a);
        StepKeepsFits(cfg, s, a);
      }
    }
  }
}
