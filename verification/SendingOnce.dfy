/**
 Exactly-once results of the sending protocol: one start per delivery whatever the interleaving, one
 provider call per log row, and requests that lose or are refused leave the database alone.
 */
module SendingOnce {
  import opened Prelude
  import opened Calendar
  import opened Deliveries
  import opened Quotas
  import opened Sending

  // ---- one start ---------------------------------------------------------------------------------

  lemma CountNotesAppend(notes: seq<Note>, m: Note, n: Note)
    ensures CountNotes(notes + [m], n) == CountNotes(notes, n) + if m == n then 1 else 0
  {
  }

  ghost predicate StartingIsUnstarted(s: State) {
    forall p, d :: p in s.procs && HoldsDelivery(s.procs[p], d) ==> !HasNote(s.db, d, OnTheWayNote)
  }

  lemma HoldsUnstarted(s: State, p: Pid, d: DeliveryId)
    requires StartingIsUnstarted(s) && p in s.procs && HoldsDelivery(s.procs[p], d)
    ensures !HasNote(s.db, d, OnTheWayNote)
  {
    hide HoldsDelivery, HasNote;
  }

  /** A note stands for a log row, and there is at most one of each. */
  ghost predicate NotesMatchRows(db: Db) {
    forall d: DeliveryId ::
      CountNotes(db.notes, Note(d, OnTheWayNote)) == CountRows(db.rows, OfDelivery(d, OnTheWay)) <= 1
  }

  lemma CommitKeepsNotes(s: State, p: Pid, startedAt: Time)
    requires NotesMatchRows(s.db) && StartingIsUnstarted(s) && Fits(s)
    requires p in s.procs && s.procs[p].Cleared?
    ensures NotesMatchRows(CommitJob(s.db, s.procs[p].job, s.procs[p].q, s.procs[p].now, startedAt))
  {
    var proc := s.procs[p];
    var db' := CommitJob(s.db, proc.job, proc.q, proc.now, startedAt);
    assert JobFits(s.db, proc);
    if proc.job.ForStart? {
      HoldsUnstarted(s, p, proc.job.d);
    }
    forall d: DeliveryId
      ensures CountNotes(db'.notes, Note(d, OnTheWayNote)) == CountRows(db'.rows, OfDelivery(d, OnTheWay)) <= 1
    {
      CountAppend(s.db.rows, RowOf(proc.q, proc.now), OfDelivery(d, OnTheWay));
      CountNotesAppend(s.db.notes, Note(proc.job.d, OnTheWayNote), Note(d, OnTheWayNote));
    }
  }

  lemma SaveKeepsNotes(db: Db, job: Job)
    requires NotesMatchRows(db) && job.d in db.deliveries
    ensures NotesMatchRows(SaveJob(db, job))
    ensures forall d :: HasNote(SaveJob(db, job), d, OnTheWayNote) <==> HasNote(db, d, OnTheWayNote)
  {
  }

  /** Two requests never hold one delivery row. */
  lemma OneHolder(s: State, p: Pid, other: Pid, d: DeliveryId)
    requires Locked(s) && p in s.procs && other in s.procs
    requires HoldsDelivery(s.procs[p], d) && HoldsDelivery(s.procs[other], d)
    ensures p == other
  {
    hide HoldsDelivery, HoldsShop;
    assert s.deliveryLock[d] == p;
  }

  lemma CommitKeepsUnstarted(s: State, p: Pid, startedAt: Time, other: Pid, d: DeliveryId)
    requires StartingIsUnstarted(s) && Locked(s) && p in s.procs && s.procs[p].Cleared?
    requires s.procs[p].job.d in s.db.deliveries
    requires other in s.procs && other != p && HoldsDelivery(s.procs[other], d)
    ensures !HasNote(CommitJob(s.db, s.procs[p].job, s.procs[p].q, s.procs[p].now, startedAt), d, OnTheWayNote)
  {
    var proc := s.procs[p];
    HoldsUnstarted(s, other, d);
    if proc.job.ForStart? {
      if proc.job.d == d {
        OneHolder(s, p, other, d);
      }
      CountNotesAppend(s.db.notes, Note(proc.job.d, OnTheWayNote), Note(d, OnTheWayNote));
    }
  }

  lemma CommitKeepsOnce(cfg: Settings, s: State, p: Pid, startedAt: Time)
    requires NotesMatchRows(s.db) && StartingIsUnstarted(s) && Locked(s) && Fits(s) && Enabled(s, Commit(p, startedAt))
    ensures var s' := Do(cfg, s, Commit(p, startedAt)); NotesMatchRows(s'.db) && StartingIsUnstarted(s')
  {
    CommitEffect(cfg, s, p, startedAt);
    NoLocks(Do(cfg, s, Commit(p, startedAt)).procs[p]);
    hide Do, Enabled, CommitJob, NotesMatchRows, Locked, Fits, HasNote, HoldsDelivery, HoldsShop;
    CommitKeepsNotes(s, p, startedAt);
    var s' := Do(cfg, s, Commit(p, startedAt));
    forall other, d | other in s'.procs && HoldsDelivery(s'.procs[other], d)
      ensures !HasNote(s'.db, d, OnTheWayNote)
    {
      CommitKeepsUnstarted(s, p, startedAt, other, d);
    }
  }

  lemma SaveKeepsOnce(cfg: Settings, s: State, p: Pid)
    requires NotesMatchRows(s.db) && StartingIsUnstarted(s) && Enabled(s, Save(p))
    ensures var s' := Do(cfg, s, Save(p)); NotesMatchRows(s'.db) && StartingIsUnstarted(s')
  {
    SaveKeepsNotes(s.db, s.procs[p].job);
    var s' := Do(cfg, s, Save(p));
    NoLocks(s'.procs[p]);
    hide SaveJob, NotesMatchRows, HasNote, HoldsDelivery, HoldsShop;
    forall other, d | other in s'.procs && HoldsDelivery(s'.procs[other], d)
      ensures !HasNote(s'.db, d, OnTheWayNote)
    {
      HoldsUnstarted(s, other, d);
    }
  }

  /** Only locking a delivery that has not started makes a request hold it. */
  lemma OtherStepHolds(cfg: Settings, s: State, a: Action, p: Pid, d: DeliveryId)
    requires Enabled(s, a) && !a.Commit? && !a.Save? && p in Do(cfg, s, a).procs
    requires HoldsDelivery(Do(cfg, s, a).procs[p], d)
    ensures Do(cfg, s, a).db.notes == s.db.notes
    ensures (p in s.procs && HoldsDelivery(s.procs[p], d)) || !HasNote(s.db, d, OnTheWayNote)
  {
    hide Verdict, CountRows, CountNotes;
  }

  lemma OtherStepKeepsOnce(cfg: Settings, s: State, a: Action)
    requires NotesMatchRows(s.db) && StartingIsUnstarted(s) && Enabled(s, a) && !a.Commit? && !a.Save?
    ensures NotesMatchRows(Do(cfg, s, a).db) && StartingIsUnstarted(Do(cfg, s, a))
  {
    var s' := Do(cfg, s, a);
    assert s'.db.rows == s.db.rows && s'.db.notes == s.db.notes by {
      hide Verdict, CountRows, CountNotes;
    }
    hide Do, Enabled, HoldsDelivery, CountRows, CountNotes;
    forall p, d | p in s'.procs && HoldsDelivery(s'.procs[p], d) ensures !HasNote(s'.db, d, OnTheWayNote) {
      OtherStepHolds(cfg, s, a, p, d);
      if p in s.procs && HoldsDelivery(s.procs[p], d) {
        HoldsUnstarted(s, p, d);
      }
    }
  }

  lemma StepKeepsOnce(cfg: Settings, s: State, a: Action)
    requires NotesMatchRows(s.db) && StartingIsUnstarted(s) && Locked(s) && Fits(s) && Enabled(s, a)
    ensures NotesMatchRows(Do(cfg, s, a).db) && StartingIsUnstarted(Do(cfg, s, a))
  {
    hide Do, Enabled, NotesMatchRows, StartingIsUnstarted, Locked, Fits;
    if a.Commit? {
      CommitKeepsOnce(cfg, s, a.p, a.startedAt);
    } else if a.Save? {
      SaveKeepsOnce(cfg, s, a.p);
    } else {
      OtherStepKeepsOnce(cfg, s, a);
    }
  }

  lemma {:induction false} RunKeepsOnce(cfg: Settings, deliveries: map<DeliveryId, Delivery>, actions: seq<Action>)
    ensures var s := Run(cfg, deliveries, actions); NotesMatchRows(s.db) && StartingIsUnstarted(s)
  {
    hide Do, Enabled;
    if actions != [] {
      var front, a := actions[..|actions| - 1], actions[|actions| - 1];
      RunKeepsOnce(cfg, deliveries, front);
      RunFits(cfg, deliveries, front);
      var s := Run(cfg, deliveries, front);
      if Enabled(s, a) {
        StepKeepsOnce(cfg, s, a);
      }
    }
  }

  // ---- one call per row ----------------------------------------------------------------------------

  predicate OwnsRow(proc: Proc) {
    proc.Logged? || proc.Saved? || proc.Called?
  }

  /** Every provider call has its own log row, written earlier by the same request. */
  ghost predicate CallsOwnRows(s: State) {
    && (forall p :: p in s.procs && OwnsRow(s.procs[p]) ==>
         s.procs[p].row < |s.db.rows| && (s.procs[p].Called? <==> s.procs[p].row in s.calls))
    && (forall p, o :: p in s.procs && o in s.procs && p != o && OwnsRow(s.procs[p]) && OwnsRow(s.procs[o]) ==>
         s.procs[p].row != s.procs[o].row)
    && (forall i :: 0 <= i < |s.calls| ==> s.calls[i] < |s.db.rows|)
    && forall i, j :: 0 <= i < j < |s.calls| ==> s.calls[i] != s.calls[j]
  }

  lemma RowsGrow(cfg: Settings, s: State, a: Action)
    requires Enabled(s, a)
    ensures |Do(cfg, s, a).db.rows| == |s.db.rows| + if a.Commit? then 1 else 0
  {
    hide Verdict, AlreadyStarted, HasNote;
  }

  lemma CallKeepsOwnRows(cfg: Settings, s: State, p: Pid)
    requires CallsOwnRows(s) && Enabled(s, Call(p))
    ensures CallsOwnRows(Do(cfg, s, Call(p)))
  {
  }

  lemma OtherKeepsOwnRows(s: State, s': State, p: Pid)
    requires CallsOwnRows(s) && s'.calls == s.calls && |s'.db.rows| >= |s.db.rows|
    requires p in s'.procs && s'.procs == s.procs[p := s'.procs[p]]
    requires OwnsRow(s'.procs[p]) ==>
               || (p in s.procs && OwnsRow(s.procs[p]) && s'.procs[p].row == s.procs[p].row
                   && (s'.procs[p].Called? <==> s.procs[p].Called?))
               || (s'.procs[p].Logged? && s'.procs[p].row == |s.db.rows| < |s'.db.rows|)
    ensures CallsOwnRows(s')
  {
  }

  lemma StepKeepsOwnRows(cfg: Settings, s: State, a: Action)
    requires CallsOwnRows(s) && Enabled(s, a)
    ensures CallsOwnRows(Do(cfg, s, a))
  {
    if a.Call? {
      CallKeepsOwnRows(cfg, s, a.p);
    } else if IsRequest(a) {
      RowsGrow(cfg, s, a);
      hide CallsOwnRows, CommitJob, SaveJob, Verdict, AlreadyStarted, HasNote;
      OtherKeepsOwnRows(s, Do(cfg, s, a), a.p);
    }
  }

  lemma {:induction false} RunKeepsOwnRows(cfg: Settings, deliveries: map<DeliveryId, Delivery>, actions: seq<Action>)
    ensures CallsOwnRows(Run(cfg, deliveries, actions))
  {
    hide Do, Enabled;
    if actions != [] {
      var front, a := actions[..|actions| - 1], actions[|actions| - 1];
      RunKeepsOwnRows(cfg, deliveries, front);
      if Enabled(Run(cfg, deliveries, front), a) {
        StepKeepsOwnRows(cfg, Run(cfg, deliveries, front), a);
      }
    }
  }

  /** The log row of a request is a row for its delivery and of its kind. */
  ghost predicate RowsOfJobs(s: State) {
    forall p :: p in s.procs && OwnsRow(s.procs[p]) ==>
      && s.procs[p].row < |s.db.rows|
      && s.db.rows[s.procs[p].row].delivery == Some(s.procs[p].job.d)
      && s.db.rows[s.procs[p].row].kind == KindOf(s.procs[p].job)
  }

  lemma CommitKeepsJobRows(cfg: Settings, s: State, p: Pid, startedAt: Time)
    requires RowsOfJobs(s) && Fits(s) && Enabled(s, Commit(p, startedAt))
    ensures RowsOfJobs(Do(cfg, s, Commit(p, startedAt)))
  {
    CommitEffect(cfg, s, p, startedAt);
    CommitAddsRow(s.db, s.procs[p].job, s.procs[p].q, s.procs[p].now, startedAt);
    assert JobFits(s.db, s.procs[p]);
    hide Do, Enabled, CommitJob, Fits;
  }

  lemma StepKeepsJobRows(cfg: Settings, s: State, a: Action)
    requires RowsOfJobs(s) && Fits(s) && Enabled(s, a)
    ensures RowsOfJobs(Do(cfg, s, a))
  {
    if a.Commit? {
      CommitKeepsJobRows(cfg, s, a.p, a.startedAt);
    } else {
      KeepsRows(cfg, s, a);
      hide Do, Enabled, Fits;
    }
  }

  lemma KeepsRows(cfg: Settings, s: State, a: Action)
    requires Enabled(s, a) && !a.Commit?
    ensures var s' := Do(cfg, s, a);
            && s'.db.rows == s.db.rows
            && forall p :: p in s'.procs && OwnsRow(s'.procs[p]) ==>
                 p in s.procs && OwnsRow(s.procs[p])
                 && s'.procs[p].row == s.procs[p].row && s'.procs[p].job == s.procs[p].job
  {
    hide Verdict, AlreadyStarted, HasNote, CommitJob;
  }

  lemma {:induction false} RunKeepsJobRows(cfg: Settings, deliveries: map<DeliveryId, Delivery>, actions: seq<Action>)
    ensures RowsOfJobs(Run(cfg, deliveries, actions))
  {
    hide Do, Enabled;
    if actions != [] {
      var front, a := actions[..|actions| - 1], actions[|actions| - 1];
      RunKeepsJobRows(cfg, deliveries, front);
      RunFits(cfg, deliveries, front);
      if Enabled(Run(cfg, deliveries, front), a) {
        StepKeepsJobRows(cfg, Run(cfg, deliveries, front), a);
      }
    }
  }

  lemma IndicesAtMostOne(rows: seq<Row>, f: Filter, i: nat, j: nat)
    requires CountRows(rows, f) <= 1 && i < |rows| && j < |rows| && Matches(f, rows[i]) && Matches(f, rows[j])
    ensures i == j
  {
    CountIsCardinality(rows, f);
    if i != j {
      SubsetIsSmaller({i, j}, Indices(rows, f));
    }
  }

  /** Of all the requests that ever asked to start a delivery, one at most gets as far as its commit. */
  lemma OneStarter(
      cfg: Settings, deliveries: map<DeliveryId, Delivery>, actions: seq<Action>, p: Pid, o: Pid)
    requires var s := Run(cfg, deliveries, actions);
             && p in s.procs && o in s.procs && OwnsRow(s.procs[p]) && OwnsRow(s.procs[o])
             && s.procs[p].job.ForStart? && s.procs[o].job.ForStart? && s.procs[p].job.d == s.procs[o].job.d
    ensures p == o
  {
    var s := Run(cfg, deliveries, actions);
    RunKeepsOnce(cfg, deliveries, actions);
    RunKeepsJobRows(cfg, deliveries, actions);
    RunKeepsOwnRows(cfg, deliveries, actions);
    hide Run, CountRows, CountNotes;
    IndicesAtMostOne(s.db.rows, OfDelivery(s.procs[p].job.d, OnTheWay), s.procs[p].row, s.procs[o].row);
  }

  /** Provider calls whose log row matches. */
  function CountCalls(calls: seq<nat>, rows: seq<Row>, f: Filter): nat
    requires forall i :: 0 <= i < |calls| ==> calls[i] < |rows|
  {
    if calls == [] then 0
    else CountCalls(calls[..|calls| - 1], rows, f) + if Matches(f, rows[calls[|calls| - 1]]) then 1 else 0
  }

  function CalledRows(calls: seq<nat>, rows: seq<Row>, f: Filter): set<nat>
    requires forall i :: 0 <= i < |calls| ==> calls[i] < |rows|
  {
    set i | i in calls && Matches(f, rows[i])
  }

  lemma CalledRowsSplit(calls: seq<nat>, last: nat, rows: seq<Row>, f: Filter)
    requires last < |rows| && forall i :: 0 <= i < |calls| ==> calls[i] < |rows|
    requires last !in calls
    ensures |CalledRows(calls + [last], rows, f)|
         == |CalledRows(calls, rows, f)| + if Matches(f, rows[last]) then 1 else 0
  {
    hide Matches;
    var before := CalledRows(calls, rows, f);
    assert last !in before;
    assert CalledRows(calls + [last], rows, f) == if Matches(f, rows[last]) then before + {last} else before;
  }

  lemma {:induction false} CallsAreAmongRows(calls: seq<nat>, rows: seq<Row>, f: Filter)
    requires forall i :: 0 <= i < |calls| ==> calls[i] < |rows|
    requires forall i, j :: 0 <= i < j < |calls| ==> calls[i] != calls[j]
    ensures CountCalls(calls, rows, f) == |CalledRows(calls, rows, f)|
  {
    hide Matches;
    if calls != [] {
      var front, last := calls[..|calls| - 1], calls[|calls| - 1];
      CallsAreAmongRows(front, rows, f);
      CalledRowsSplit(front, last, rows, f);
      assert calls == front + [last];
    }
  }

  /** So calls are never more than rows, for whatever the rows are counted by. */
  lemma CallsInheritCaps(cfg: Settings, deliveries: map<DeliveryId, Delivery>, actions: seq<Action>, f: Filter)
    ensures var s := Run(cfg, deliveries, actions);
            && CallsOwnRows(s)
            && CountCalls(s.calls, s.db.rows, f) <= CountRows(s.db.rows, f)
  {
    RunKeepsOwnRows(cfg, deliveries, actions);
    var s := Run(cfg, deliveries, actions);
    CallsAreAmongRows(s.calls, s.db.rows, f);
    CountIsCardinality(s.db.rows, f);
    SubsetIsSmaller(CalledRows(s.calls, s.db.rows, f), Indices(s.db.rows, f));
  }

  /**
   However many start requests on however stale copies: one notification, one log row and one provider
   call for the start of a delivery, at most, and the notification exists exactly when the row does.
   */
  lemma StartsAtMostOnce(
      cfg: Settings, deliveries: map<DeliveryId, Delivery>, actions: seq<Action>, d: DeliveryId)
    ensures var s := Run(cfg, deliveries, actions);
            var rows := CountRows(s.db.rows, OfDelivery(d, OnTheWay));
            && CountNotes(s.db.notes, Note(d, OnTheWayNote)) == rows <= 1
            && CallsOwnRows(s)
            && CountCalls(s.calls, s.db.rows, OfDelivery(d, OnTheWay)) <= rows
  {
    RunKeepsOnce(cfg, deliveries, actions);
    CallsInheritCaps(cfg, deliveries, actions, OfDelivery(d, OnTheWay));
  }

  // ---- losers change nothing -------------------------------------------------------------------------

  ghost predicate WritersGotThrough(s: State) {
    forall p :: p in s.writers ==> p in s.procs && (OwnsRow(s.procs[p]) || s.procs[p] == Quit(Crashed))
  }

  lemma StepKeepsWriters(cfg: Settings, s: State, a: Action)
    requires WritersGotThrough(s) && Enabled(s, a)
    ensures WritersGotThrough(Do(cfg, s, a))
  {
    hide CommitJob, SaveJob, Verdict, AlreadyStarted, HasNote;
  }

  lemma {:induction false} RunKeepsWriters(cfg: Settings, deliveries: map<DeliveryId, Delivery>, actions: seq<Action>)
    ensures WritersGotThrough(Run(cfg, deliveries, actions))
  {
    hide Do, Enabled;
    if actions != [] {
      var front, a := actions[..|actions| - 1], actions[|actions| - 1];
      RunKeepsWriters(cfg, deliveries, front);
      if Enabled(Run(cfg, deliveries, front), a) {
        StepKeepsWriters(cfg, Run(cfg, deliveries, front), a);
      }
    }
  }

  /** A request that lost the race, got no route or hit a quota never changed the database. */
  lemma LosersChangeNothing(cfg: Settings, deliveries: map<DeliveryId, Delivery>, actions: seq<Action>, p: Pid)
    requires var s := Run(cfg, deliveries, actions);
             p in s.procs && s.procs[p].Quit? && s.procs[p].outcome != Crashed
    ensures p !in Run(cfg, deliveries, actions).writers
  {
    RunKeepsWriters(cfg, deliveries, actions);
  }

  /** `writers` is what it says: whoever's step changes the database is in it from then on. */
  lemma WritersAreRecorded(cfg: Settings, s: State, a: Action)
    requires Enabled(s, a) && IsRequest(a)
    ensures s.writers <= Do(cfg, s, a).writers
    ensures Do(cfg, s, a).db != s.db ==> a.p in Do(cfg, s, a).writers
  {
  }
}
