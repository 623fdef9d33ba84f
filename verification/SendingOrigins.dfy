/**
 Where every message of the sending protocol comes from: what a request asks for, under which number it is logged and
 which number is called, all read off the actions that began it and the delivery row they saw.
 */
module SendingOrigins {
  import opened Prelude
  import opened Calendar
  import opened Deliveries
  import opened Quotas
  import opened Sending
  import opened SendingOnce
  import opened SendingCaps

  // ---- the actions a request came from ------------------------------------------------------------------------

  predicate Noted(db: Db, d: DeliveryId, kind: NoteKind) {
    Note(d, kind) in db.notes
  }

  lemma {:induction false} CountedIsThere(notes: seq<Note>, n: Note)
    ensures CountNotes(notes, n) > 0 <==> n in notes
  {
    if notes != [] {
      CountedIsThere(notes[..|notes| - 1], n);
      assert notes == notes[..|notes| - 1] + [notes[|notes| - 1]];
    }
  }

  /** Action `i` began a start of `d`, whose stale copy was not on the way and which had no notification. */
  ghost predicate BeganStart(
      cfg: Settings, deliveries: map<DeliveryId, Delivery>, actions: seq<Action>, i: nat,
      p: Pid, d: DeliveryId, manualEta: Option<Time>) {
    && i < |actions| && actions[i].BeginStart? && actions[i].p == p && actions[i].d == d && actions[i].manualEta == manualEta
    && actions[i].staleStatus != OnTheWayStatus
    && var s := Run(cfg, deliveries, actions[..i]);
    p !in s.procs && d in s.db.deliveries && !Noted(s.db, d, OnTheWayNote)
  }

  /** Action `i` gave it its arrival time: the shop's own where it gave one, else the route's. */
  ghost predicate FoundRoute(
      cfg: Settings, deliveries: map<DeliveryId, Delivery>, actions: seq<Action>, i: nat, p: Pid, d: DeliveryId, eta: Time) {
    && i < |actions| && actions[i].Route? && actions[i].p == p
    && exists j: nat, manualEta ::
      && j < i && BeganStart(cfg, deliveries, actions, j, p, d, manualEta)
      && (manualEta == Some(eta) || (manualEta == None && actions[i].found == Some(eta)))
  }

  /** Action `i` locked `d`, not on the way and without a notification; the request is for the row it found. */
  ghost predicate LockedToStart(
      cfg: Settings, deliveries: map<DeliveryId, Delivery>, actions: seq<Action>, i: nat, p: Pid, job: Job, q: Request) {
    && i < |actions| && actions[i] == LockDelivery(p) && job.ForStart?
    && (exists j: nat :: j < i && FoundRoute(cfg, deliveries, actions, j, p, job.d, job.eta))
    && var db := Run(cfg, deliveries, actions[..i]).db;
    && job.d in db.deliveries && db.deliveries[job.d].status != OnTheWayStatus && !Noted(db, job.d, OnTheWayNote)
    && var row := db.deliveries[job.d];
    q == Request(row.shop, Some(job.d), row.phone, OnTheWay, row.risky)
  }

  /** Action `i` began a resend of a started delivery with a token: to the new number, or else to the row's. */
  ghost predicate BeganResend(
      cfg: Settings, deliveries: map<DeliveryId, Delivery>, actions: seq<Action>, i: nat, p: Pid, job: Job, q: Request) {
    && i < |actions| && job.ForResend? && actions[i] == BeginResend(p, job.d, job.newPhone)
    && p !in Run(cfg, deliveries, actions[..i]).procs
    && var db := Run(cfg, deliveries, actions[..i]).db;
    && job.d in db.deliveries && Noted(db, job.d, OnTheWayNote) && job.d in db.tokens
    && var row := db.deliveries[job.d];
    q == (if job.newPhone.Some?
          then Request(row.shop, Some(job.d), job.newPhone.value.0, Resend, job.newPhone.value.1)
          else Request(row.shop, Some(job.d), row.phone, Resend, row.risky))
  }

  /** Action `i` began a rating request of a delivery without one, with a token and a recipient who did not opt out. */
  ghost predicate BeganRating(
      cfg: Settings, deliveries: map<DeliveryId, Delivery>, actions: seq<Action>, i: nat, p: Pid, job: Job, q: Request) {
    && i < |actions| && job.ForRating? && actions[i] == BeginRating(p, job.d, false)
    && p !in Run(cfg, deliveries, actions[..i]).procs
    && var db := Run(cfg, deliveries, actions[..i]).db;
    && job.d in db.deliveries && !Noted(db, job.d, RatingNote) && job.d in db.tokens
    && var row := db.deliveries[job.d];
    q == Request(row.shop, Some(job.d), row.phone, RatingRequest, row.risky)
  }

  ghost predicate MadeBy(
      cfg: Settings, deliveries: map<DeliveryId, Delivery>, actions: seq<Action>, i: nat, p: Pid, job: Job, q: Request) {
    || LockedToStart(cfg, deliveries, actions, i, p, job, q)
    || BeganResend(cfg, deliveries, actions, i, p, job, q)
    || BeganRating(cfg, deliveries, actions, i, p, job, q)
  }

  ghost predicate HasOrigin(cfg: Settings, deliveries: map<DeliveryId, Delivery>, actions: seq<Action>, p: Pid, proc: Proc) {
    match proc
    case Fresh(d, manualEta) => exists i: nat :: BeganStart(cfg, deliveries, actions, i, p, d, manualEta)
    case Routed(d, eta) => exists i: nat :: FoundRoute(cfg, deliveries, actions, i, p, d, eta)
    case Quit(_) => true
    case _ => exists i: nat :: MadeBy(cfg, deliveries, actions, i, p, proc.job, proc.q)
  }

  // ---- every request has its origin ------------------------------------------------------------------------------

  lemma OneActionMore(cfg: Settings, deliveries: map<DeliveryId, Delivery>, front: seq<Action>, actions: seq<Action>, p: Pid, proc: Proc)
    requires front <= actions && HasOrigin(cfg, deliveries, front, p, proc)
    ensures HasOrigin(cfg, deliveries, actions, p, proc)
  {
    hide Run;
    assert forall i: nat :: i < |front| ==> front[..i] == actions[..i] && front[i] == actions[i];
    match proc
    case Fresh(d, manualEta) =>
      var i: nat :| BeganStart(cfg, deliveries, front, i, p, d, manualEta);
      assert BeganStart(cfg, deliveries, actions, i, p, d, manualEta);
    case Routed(d, eta) =>
      var i: nat :| FoundRoute(cfg, deliveries, front, i, p, d, eta);
      RouteOneMore(cfg, deliveries, front, actions, i, p, d, eta);
    case Quit(_) =>
    case _ =>
      hide MadeBy;
      var i: nat :| MadeBy(cfg, deliveries, front, i, p, proc.job, proc.q);
      MadeOneMore(cfg, deliveries, front, actions, i, p, proc.job, proc.q);
  }

  lemma MadeOneMore(
      cfg: Settings, deliveries: map<DeliveryId, Delivery>, front: seq<Action>, actions: seq<Action>, i: nat,
      p: Pid, job: Job, q: Request)
    requires front <= actions && MadeBy(cfg, deliveries, front, i, p, job, q)
    ensures MadeBy(cfg, deliveries, actions, i, p, job, q)
  {
    hide Run;
    assert front[..i] == actions[..i] && front[i] == actions[i];
    if LockedToStart(cfg, deliveries, front, i, p, job, q) {
      var j: nat :| j < i && FoundRoute(cfg, deliveries, front, j, p, job.d, job.eta);
      RouteOneMore(cfg, deliveries, front, actions, j, p, job.d, job.eta);
    }
  }

  lemma RouteOneMore(
      cfg: Settings, deliveries: map<DeliveryId, Delivery>, front: seq<Action>, actions: seq<Action>, i: nat,
      p: Pid, d: DeliveryId, eta: Time)
    requires front <= actions && FoundRoute(cfg, deliveries, front, i, p, d, eta)
    ensures FoundRoute(cfg, deliveries, actions, i, p, d, eta)
  {
    hide Run;
    var j: nat, manualEta :| j < i && BeganStart(cfg, deliveries, front, j, p, d, manualEta)
                        && (manualEta == Some(eta) || (manualEta == None && front[i].found == Some(eta)));
    assert front[..j] == actions[..j];
    assert BeganStart(cfg, deliveries, actions, j, p, d, manualEta);
  }

  /** What a step makes of the request it moves: one that came from this very action, or the same as before. */
  lemma StepHasOrigin(cfg: Settings, deliveries: map<DeliveryId, Delivery>, actions: seq<Action>, p: Pid)
    requires actions != []
    requires var front, a := actions[..|actions| - 1], actions[|actions| - 1];
             var s := Run(cfg, deliveries, front);
             && Enabled(s, a) && p in Do(cfg, s, a).procs
             && AllHaveOrigins(cfg, deliveries, front, s.procs)
    ensures var s := Run(cfg, deliveries, actions[..|actions| - 1]);
            HasOrigin(cfg, deliveries, actions, p, Do(cfg, s, actions[|actions| - 1]).procs[p])
  {
    var n := |actions| - 1;
    var front, a := actions[..n], actions[n];
    var s := Run(cfg, deliveries, front);
    hide Run, Do, HasOrigin;
    if !IsRequest(a) || a.p != p {
      OthersStay(cfg, s, a, p);
      OneActionMore(cfg, deliveries, front, actions, p, s.procs[p]);
    } else if a.BeginStart? || a.BeginResend? || a.BeginRating? {
      BeginHasOrigin(cfg, deliveries, actions, p);
    } else if a.Route? {
      RouteHasOrigin(cfg, deliveries, actions, p);
    } else if a.LockDelivery? {
      LockHasOrigin(cfg, deliveries, actions, p);
    } else {
      OneActionMore(cfg, deliveries, front, actions, p, s.procs[p]);
      SameRequest(cfg, s, a);
      SameOrigin(cfg, deliveries, actions, p, s.procs[p], Do(cfg, s, a).procs[p]);
    }
  }

  lemma OthersStay(cfg: Settings, s: State, a: Action, p: Pid)
    requires Enabled(s, a) && (!IsRequest(a) || a.p != p) && p in Do(cfg, s, a).procs
    ensures p in s.procs && Do(cfg, s, a).procs[p] == s.procs[p]
  {
    hide CommitJob, SaveJob, Verdict, AlreadyStarted, HasNote;
  }

  lemma SameOrigin(
      cfg: Settings, deliveries: map<DeliveryId, Delivery>, actions: seq<Action>, p: Pid, proc: Proc, proc': Proc)
    requires HasOrigin(cfg, deliveries, actions, p, proc)
    requires proc'.Quit? || ((Underway(proc) || OwnsRow(proc)) && (Underway(proc') || OwnsRow(proc'))
                             && proc'.job == proc.job && proc'.q == proc.q)
    ensures HasOrigin(cfg, deliveries, actions, p, proc')
  {
    hide MadeBy;
  }

  lemma SameRequest(cfg: Settings, s: State, a: Action)
    requires Enabled(s, a) && IsRequest(a) && !a.BeginStart? && !a.BeginResend? && !a.BeginRating? && !a.Route? && !a.LockDelivery?
    ensures var proc, proc' := s.procs[a.p], Do(cfg, s, a).procs[a.p];
            && a.p in Do(cfg, s, a).procs
            && (proc'.Quit? || ((Underway(proc) || OwnsRow(proc)) && (Underway(proc') || OwnsRow(proc'))
                            && proc'.job == proc.job && proc'.q == proc.q))
  {
    hide CommitJob, SaveJob, Verdict;
  }

  lemma BeginHasOrigin(cfg: Settings, deliveries: map<DeliveryId, Delivery>, actions: seq<Action>, p: Pid)
    requires actions != []
    requires var a := actions[|actions| - 1];
             && (a.BeginStart? || a.BeginResend? || a.BeginRating?) && a.p == p
             && Enabled(Run(cfg, deliveries, actions[..|actions| - 1]), a)
    ensures var s := Run(cfg, deliveries, actions[..|actions| - 1]);
            HasOrigin(cfg, deliveries, actions, p, Do(cfg, s, actions[|actions| - 1]).procs[p])
  {
    var n := |actions| - 1;
    var a, s := actions[n], Run(cfg, deliveries, actions[..n]);
    var proc := Do(cfg, s, a).procs[p];
    hide Run;
    CountedIsThere(s.db.notes, Note(a.d, OnTheWayNote));
    CountedIsThere(s.db.notes, Note(a.d, RatingNote));
    hide CountNotes;
    if proc.Fresh? {
      assert BeganStart(cfg, deliveries, actions, n, p, a.d, a.manualEta);
    } else if proc.Ready? {
      assert MadeBy(cfg, deliveries, actions, n, p, proc.job, proc.q);
    }
  }

  lemma RouteHasOrigin(cfg: Settings, deliveries: map<DeliveryId, Delivery>, actions: seq<Action>, p: Pid)
    requires actions != []
    requires var n := |actions| - 1;
             var s := Run(cfg, deliveries, actions[..n]);
             && actions[n].Route? && actions[n].p == p && Enabled(s, actions[n])
             && HasOrigin(cfg, deliveries, actions[..n], p, s.procs[p])
    ensures var s := Run(cfg, deliveries, actions[..|actions| - 1]);
            HasOrigin(cfg, deliveries, actions, p, Do(cfg, s, actions[|actions| - 1]).procs[p])
  {
    var n := |actions| - 1;
    var a, s := actions[n], Run(cfg, deliveries, actions[..n]);
    var proc, proc' := s.procs[p], Do(cfg, s, a).procs[p];
    hide Run;
    if proc'.Routed? {
      var i: nat :| BeganStart(cfg, deliveries, actions[..n], i, p, proc.d, proc.manualEta);
      assert actions[..n][..i] == actions[..i];
      assert BeganStart(cfg, deliveries, actions, i, p, proc.d, proc.manualEta);
      assert FoundRoute(cfg, deliveries, actions, n, p, proc.d, proc'.eta);
    }
  }

  lemma LockHasOrigin(cfg: Settings, deliveries: map<DeliveryId, Delivery>, actions: seq<Action>, p: Pid)
    requires actions != []
    requires var n := |actions| - 1;
             var s := Run(cfg, deliveries, actions[..n]);
             && actions[n] == LockDelivery(p) && Enabled(s, actions[n])
             && HasOrigin(cfg, deliveries, actions[..n], p, s.procs[p])
    ensures var s := Run(cfg, deliveries, actions[..|actions| - 1]);
            HasOrigin(cfg, deliveries, actions, p, Do(cfg, s, actions[|actions| - 1]).procs[p])
  {
    var n := |actions| - 1;
    var a, s := actions[n], Run(cfg, deliveries, actions[..n]);
    var proc, proc' := s.procs[p], Do(cfg, s, a).procs[p];
    hide Run;
    CountedIsThere(s.db.notes, Note(proc.d, OnTheWayNote));
    hide CountNotes;
    if proc'.Ready? {
      var i: nat :| FoundRoute(cfg, deliveries, actions[..n], i, p, proc.d, proc.eta);
      RouteOneMore(cfg, deliveries, actions[..n], actions, i, p, proc.d, proc.eta);
      assert LockedToStart(cfg, deliveries, actions, n, p, proc'.job, proc'.q);
      assert MadeBy(cfg, deliveries, actions, n, p, proc'.job, proc'.q);
    }
  }

  /**
   In every run, every request stands where its actions put it: a start that goes on saw the delivery not started
   twice, the second time under the lock, and carries the arrival time it was given; a resend is of a started
   delivery; a rating request of one without; and each asks for the number and the risk its actions name or found.
   */
  lemma {:induction false} RunHasOrigins(cfg: Settings, deliveries: map<DeliveryId, Delivery>, actions: seq<Action>)
    ensures AllHaveOrigins(cfg, deliveries, actions, Run(cfg, deliveries, actions).procs)
  {
    hide Do, Enabled, HasOrigin;
    if actions != [] {
      var front, a := actions[..|actions| - 1], actions[|actions| - 1];
      RunHasOrigins(cfg, deliveries, front);
      var s, s' := Run(cfg, deliveries, front), Run(cfg, deliveries, actions);
      forall p | p in s'.procs ensures HasOrigin(cfg, deliveries, actions, p, s'.procs[p]) {
        if Enabled(s, a) {
          StepHasOrigin(cfg, deliveries, actions, p);
        } else {
          OneActionMore(cfg, deliveries, front, actions, p, s.procs[p]);
        }
      }
    }
  }

  ghost predicate AllHaveOrigins(
      cfg: Settings, deliveries: map<DeliveryId, Delivery>, actions: seq<Action>, procs: map<Pid, Proc>) {
    forall p :: p in procs ==> HasOrigin(cfg, deliveries, actions, p, procs[p])
  }

  // ---- what is logged, and who is called -------------------------------------------------------------------------

  /** The log row of a request is what it asked for. */
  ghost predicate RowsOfRequests(s: State) {
    forall p :: p in s.procs && OwnsRow(s.procs[p]) ==>
      && s.procs[p].row < |s.db.rows|
      && var r, q := s.db.rows[s.procs[p].row], s.procs[p].q;
      r.shop == q.shop && r.delivery == q.delivery && r.phone == q.phone && r.kind == q.kind
  }

  /** Every call went to the number in its log row. */
  ghost predicate CallsAsLogged(s: State) {
    && |s.numbers| == |s.calls|
    && forall i :: 0 <= i < |s.calls| ==> s.calls[i] < |s.db.rows| && s.numbers[i] == s.db.rows[s.calls[i]].phone
  }

  lemma CommitKeepsRequests(cfg: Settings, s: State, p: Pid, startedAt: Time)
    requires RowsOfRequests(s) && CallsAsLogged(s) && Enabled(s, Commit(p, startedAt))
    ensures RowsOfRequests(Do(cfg, s, Commit(p, startedAt))) && CallsAsLogged(Do(cfg, s, Commit(p, startedAt)))
  {
    CommitEffect(cfg, s, p, startedAt);
    CommitAddsRow(s.db, s.procs[p].job, s.procs[p].q, s.procs[p].now, startedAt);
    assert Do(cfg, s, Commit(p, startedAt)).calls == s.calls && Do(cfg, s, Commit(p, startedAt)).numbers == s.numbers;
    hide Do, Enabled, CommitJob;
  }

  lemma OtherKeepsRequests(cfg: Settings, s: State, a: Action)
    requires RowsOfRequests(s) && CallsAsLogged(s) && Enabled(s, a) && !a.Commit?
    ensures RowsOfRequests(Do(cfg, s, a)) && CallsAsLogged(Do(cfg, s, a))
  {
    OtherEffect(cfg, s, a);
    hide Do, Enabled;
  }

  lemma OtherEffect(cfg: Settings, s: State, a: Action)
    requires Enabled(s, a) && !a.Commit?
    ensures var s' := Do(cfg, s, a);
            && s'.db.rows == s.db.rows
            && (forall p :: p in s'.procs && OwnsRow(s'.procs[p]) ==>
                 p in s.procs && OwnsRow(s.procs[p]) && s'.procs[p].row == s.procs[p].row && s'.procs[p].q == s.procs[p].q)
            && (if a.Call? then
                  a.p in s.procs && OwnsRow(s.procs[a.p])
                  && s'.calls == s.calls + [s.procs[a.p].row] && s'.numbers == s.numbers + [s.procs[a.p].q.phone]
                else s'.calls == s.calls && s'.numbers == s.numbers)
  {
    hide Verdict, AlreadyStarted, HasNote, CommitJob;
  }

  lemma {:induction false} RunKeepsRequests(cfg: Settings, deliveries: map<DeliveryId, Delivery>, actions: seq<Action>)
    ensures var s := Run(cfg, deliveries, actions); RowsOfRequests(s) && CallsAsLogged(s)
  {
    hide Do, Enabled;
    if actions != [] {
      var front, a := actions[..|actions| - 1], actions[|actions| - 1];
      RunKeepsRequests(cfg, deliveries, front);
      var s := Run(cfg, deliveries, front);
      if Enabled(s, a) {
        if a.Commit? {
          CommitKeepsRequests(cfg, s, a.p, a.startedAt);
        } else {
          OtherKeepsRequests(cfg, s, a);
        }
      }
    }
  }

  lemma {:induction false} RequestsStay(cfg: Settings, deliveries: map<DeliveryId, Delivery>, actions: seq<Action>, n: nat, p: Pid)
    requires n <= |actions| && p in Run(cfg, deliveries, actions[..n]).procs
    ensures p in Run(cfg, deliveries, actions).procs
    decreases |actions|
  {
    if n == |actions| {
      assert actions[..n] == actions;
    } else {
      var front := actions[..|actions| - 1];
      assert front[..n] == actions[..n];
      RequestsStay(cfg, deliveries, front, n, p);
      StepKeepsRequests(cfg, Run(cfg, deliveries, front), actions[|actions| - 1]);
      hide Do, Enabled;
    }
  }

  lemma StepKeepsRequests(cfg: Settings, s: State, a: Action)
    ensures Enabled(s, a) ==> s.procs.Keys <= Do(cfg, s, a).procs.Keys
  {
    hide CommitJob, SaveJob, Verdict, AlreadyStarted, HasNote;
  }

  predicate Begins(a: Action) {
    a.BeginStart? || a.BeginResend? || a.BeginRating?
  }

  /** A request begins once. */
  lemma BeganOnce(cfg: Settings, deliveries: map<DeliveryId, Delivery>, actions: seq<Action>, i: nat, j: nat, p: Pid)
    requires i < j < |actions| && Begins(actions[i]) && actions[i].p == p
    requires Enabled(Run(cfg, deliveries, actions[..i]), actions[i])
    ensures p in Run(cfg, deliveries, actions[..j]).procs
  {
    assert actions[..i + 1][..i] == actions[..i];
    assert p in Run(cfg, deliveries, actions[..i + 1]).procs by {
      hide Verdict, AlreadyStarted, HasNote;
    }
    assert actions[..j][..i + 1] == actions[..i + 1];
    hide Run;
    RequestsStay(cfg, deliveries, actions[..j], i + 1, p);
  }

  /**
   A resend to a new number is reserved, logged and sent under that number and its risk, in every run; one to no new
   number under the number the delivery had when it was asked for.
   */
  lemma ResendIsToItsNumber(
      cfg: Settings, deliveries: map<DeliveryId, Delivery>, actions: seq<Action>, i: nat, p: Pid)
    requires i < |actions| && actions[i].BeginResend? && actions[i].p == p
    requires Enabled(Run(cfg, deliveries, actions[..i]), actions[i])
    requires var s := Run(cfg, deliveries, actions); p in s.procs && (Underway(s.procs[p]) || OwnsRow(s.procs[p]))
    ensures var s, db := Run(cfg, deliveries, actions), Run(cfg, deliveries, actions[..i]).db;
            && actions[i].d in db.deliveries
            && var row, proc := db.deliveries[actions[i].d], s.procs[p];
            var to := if actions[i].newPhone.Some? then actions[i].newPhone.value else (row.phone, row.risky);
            && proc.job == ForResend(actions[i].d, actions[i].newPhone)
            && proc.q.phone == to.0 && proc.q.risky == to.1
            && (OwnsRow(proc) ==> proc.row < |s.db.rows| && s.db.rows[proc.row].phone == to.0)
  {
    var s, a := Run(cfg, deliveries, actions), actions[i];
    RunHasOrigins(cfg, deliveries, actions);
    RunKeepsRequests(cfg, deliveries, actions);
    hide Run, MadeBy, RowsOfRequests, CallsAsLogged;
    var job, q := s.procs[p].job, s.procs[p].q;
    var j: nat :| MadeBy(cfg, deliveries, actions, j, p, job, q);
    OriginIsBegin(cfg, deliveries, actions, i, j, p, job, q);
    if OwnsRow(s.procs[p]) {
      OwnRow(s, p);
    }
  }

  lemma OwnRow(s: State, p: Pid)
    requires RowsOfRequests(s) && p in s.procs && OwnsRow(s.procs[p])
    ensures s.procs[p].row < |s.db.rows| && s.db.rows[s.procs[p].row].phone == s.procs[p].q.phone
  {
  }

  /** The origin of a request whose resend began at action `i` is that action. */
  lemma OriginIsBegin(
      cfg: Settings, deliveries: map<DeliveryId, Delivery>, actions: seq<Action>, i: nat, j: nat, p: Pid, job: Job, q: Request)
    requires i < |actions| && actions[i].BeginResend? && actions[i].p == p
    requires Enabled(Run(cfg, deliveries, actions[..i]), actions[i]) && MadeBy(cfg, deliveries, actions, j, p, job, q)
    ensures BeganResend(cfg, deliveries, actions, i, p, job, q)
  {
    hide Run;
    if LockedToStart(cfg, deliveries, actions, j, p, job, q) {
      var k: nat :| k < j && FoundRoute(cfg, deliveries, actions, k, p, job.d, job.eta);
      var h: nat, manualEta :| h < k && BeganStart(cfg, deliveries, actions, h, p, job.d, manualEta);
      SameBegin(cfg, deliveries, actions, i, h, p);
    } else {
      SameBegin(cfg, deliveries, actions, i, j, p);
    }
  }

  lemma SameBegin(cfg: Settings, deliveries: map<DeliveryId, Delivery>, actions: seq<Action>, i: nat, j: nat, p: Pid)
    requires i < |actions| && j < |actions| && Begins(actions[i]) && actions[i].p == p && Begins(actions[j]) && actions[j].p == p
    requires var s := Run(cfg, deliveries, actions[..i]); p !in s.procs && Enabled(s, actions[i])
    requires var s := Run(cfg, deliveries, actions[..j]); p !in s.procs && Enabled(s, actions[j])
    ensures i == j
  {
    if i < j {
      BeganOnce(cfg, deliveries, actions, i, j, p);
    } else if j < i {
      BeganOnce(cfg, deliveries, actions, j, i, p);
    }
  }

  // ---- calls to one number ----------------------------------------------------------------------------------------

  /** The calls to `phone` that were reserved on `day`. */
  function CallsTo(s: State, phone: Phone, day: nat): set<nat> {
    set i | 0 <= i < |s.calls| && i < |s.numbers| && s.numbers[i] == phone
            && s.calls[i] < |s.db.rows| && DayOf(s.db.rows[s.calls[i]].createdAt) == day
  }

  lemma CallsToHaveRows(s: State, phone: Phone, day: nat)
    requires CallsAsLogged(s) && CallsOwnRows(s)
    ensures |CallsTo(s, phone, day)| <= CountRows(s.db.rows, PhoneOnDay(phone, day))
  {
    var rowOf := map i | i in CallsTo(s, phone, day) :: s.calls[i];
    InjectionFits(rowOf, Indices(s.db.rows, PhoneOnDay(phone, day)));
    CountIsCardinality(s.db.rows, PhoneOnDay(phone, day));
    assert rowOf.Keys == CallsTo(s, phone, day);
  }

  /**
   However resends change numbers: with at most `k` reservations between check and commit at a time, the providers are
   asked less than `k` times more than the cap to send to one number in a day.
   */
  lemma CallsToOneNumber(
      cfg: Settings, deliveries: map<DeliveryId, Delivery>, actions: seq<Action>, k: nat, phone: Phone, day: nat)
    requires k >= 1 && AtMostInFlight(cfg, deliveries, actions, k)
    ensures |CallsTo(Run(cfg, deliveries, actions), phone, day)| <= cfg.recipientDay + k - 1
  {
    hide Run, CallsTo, AtMostInFlight;
    RunKeepsRequests(cfg, deliveries, actions);
    RunKeepsOwnRows(cfg, deliveries, actions);
    CallsToHaveRows(Run(cfg, deliveries, actions), phone, day);
    SharedCapsUpToConcurrency(cfg, deliveries, actions, k, phone, day);
  }
}
