/**
 One delivery from creation to erasure, one operation at a time: deliveries/services.py behind the gates of
 deliveries/views.py, deliveries/api.py, tracking/views.py and tasks/views.py, and the purge.
 */
module Lifecycle {
  import opened Prelude
  import opened Calendar
  import opened Deliveries
  import opened TimeWindow
  import Retention

  /** A rating request that went out: for which arrival time, and when. */
  datatype RatingSent = RatingSent(eta: Option<Time>, at: Time)

  /**
   The delivery row and what hangs on it: the expiry of its tracking token, its on-the-way notifications, its
   rating requests, the times rating tasks were scheduled for, and the provider calls made for it.
   */
  datatype Life = Life(
    row: Delivery, token: Option<Time>, onTheWay: nat, ratings: seq<RatingSent>, tasks: set<Time>, calls: nat)

  datatype Event =
    | Start(now: Time, manualEta: Option<Time>, route: Option<Time>, withinQuota: bool)
    | Ready
    | Deliver(now: Time)
    | Received(now: Time)
    | Delete(now: Time)
    | Restore
    | Edit(name: string, phone: Phone, risky: bool, address: string, geocode: Option<(string, (int, int))>, eta: Option<Time>)
    | Resend(newPhone: Option<(Phone, bool)>, withinQuota: bool)
    | RatingTask(now: Time, optedOut: bool, withinQuota: bool)
    | EscalationTask(calls: nat)
    | Purge(cutoff: int, now: Time)

  const EARLY: nat := 5 * 60

  /** The default of `TRACKING_TOKEN_TTL_DAYS`. */
  const TOKEN_TTL_DAYS: nat := 7

  // ---- operations ----------------------------------------------------------------------------------

  /** No view and no endpoint finds a delivery whose recipient data has been erased. */
  predicate IsLive(row: Delivery) {
    row.purgedAt.None?
  }

  predicate AlreadyStarted(l: Life) {
    l.row.status == OnTheWayStatus || l.onTheWay > 0
  }

  function StartOf(l: Life, now: Time, eta: Time): Life {
    l.(row := l.row.(status := OnTheWayStatus, startedAt := Some(now), etaAt := Some(eta)),
       token := if l.token.Some? then l.token else Some(now + TOKEN_TTL_DAYS * DAY),
       onTheWay := l.onTheWay + 1, tasks := l.tasks + {RatingSendTime(eta)}, calls := l.calls + 1)
  }

  function DeliveredAt(row: Delivery, now: Time): Delivery {
    if row.status == Delivered then row else row.(status := Delivered, deliveredAt := Some(now))
  }

  /** `update_delivery` changes the arrival time of a delivery on the way, and of no other. */
  predicate Reschedules(row: Delivery, eta: Option<Time>) {
    eta.Some? && row.status == OnTheWayStatus && eta != row.etaAt
  }

  function EditRow(row: Delivery, e: Event): Delivery
    requires e.Edit?
  {
    var r := row.(name := e.name,
                  phone := e.phone,
                  risky := if e.phone != row.phone then e.risky else row.risky,
                  address := if e.address == row.address || e.geocode.None? then e.address else e.geocode.value.0,
                  point := if e.address == row.address then row.point
                           else if e.geocode.None? then None else Some(e.geocode.value.1));
    if Reschedules(row, e.eta) then r.(etaAt := e.eta) else r
  }

  function ChangedFields(row: Delivery, e: Event): set<string>
    requires e.Edit?
  {
    (if e.name != row.name then {"recipient_name"} else {})
    + (if e.phone != row.phone then {"recipient_phone"} else {})
    + (if e.address != row.address then {"dest_address"} else {})
    + (if Reschedules(row, e.eta) then {"eta_at"} else {})
  }

  lemma RescheduleApart(row: Delivery, e: Event)
    requires e.Edit?
    ensures var without := e.(eta := None);
            && EditRow(row, e) == (if Reschedules(row, e.eta) then EditRow(row, without).(etaAt := e.eta) else EditRow(row, without))
            && ChangedFields(row, e) == ChangedFields(row, without) + if Reschedules(row, e.eta) then {"eta_at"} else {}
  {
  }

  /** An edit changes the row only if it names a field. */
  lemma ChangedFieldsTellAll(row: Delivery, e: Event)
    requires e.Edit?
    ensures EditRow(row, e) != row ==> ChangedFields(row, e) != {}
    ensures var changed := ChangedFields(row, e);
            && changed <= {"recipient_name", "recipient_phone", "dest_address", "eta_at"}
            && ("recipient_name" in changed <==> e.name != row.name)
            && ("recipient_phone" in changed <==> e.phone != row.phone)
            && ("dest_address" in changed <==> e.address != row.address)
            && ("eta_at" in changed <==> e.eta.Some? && row.status == OnTheWayStatus && e.eta != row.etaAt)
  {
    var changed := ChangedFields(row, e);
    assert |"recipient_name"| == 14 && |"recipient_phone"| == 15 && |"dest_address"| == 12 && |"eta_at"| == 6;
    assert e.name != row.name ==> "recipient_name" in changed;
    assert e.phone != row.phone ==> "recipient_phone" in changed;
    assert e.address != row.address ==> "dest_address" in changed;
    assert Reschedules(row, e.eta) ==> "eta_at" in changed;
  }

  /** The guard of the rating task: its time has moved. */
  predicate TooEarly(row: Delivery, now: Time) {
    row.etaAt.Some? && RatingSendTime(row.etaAt.value) > now + EARLY
  }

  predicate MaySendRating(l: Life, optedOut: bool, withinQuota: bool) {
    l.ratings == [] && l.token.Some? && !optedOut && withinQuota
  }

  function Do(l: Life, e: Event): Life {
    match e
    case Start(now, manualEta, route, withinQuota) =>
      var eta := if manualEta.Some? then manualEta else route;
      if !IsLive(l.row) || AlreadyStarted(l) || eta.None? || !withinQuota then l else StartOf(l, now, eta.value)
    case Ready => if IsLive(l.row) && l.row.status == New then l.(row := l.row.(status := Created)) else l
    case Deliver(now) => if IsLive(l.row) then l.(row := DeliveredAt(l.row, now)) else l
    case Received(now) =>
      if l.token.Some? && now <= l.token.value then l.(row := DeliveredAt(l.row, now)) else l
    case Delete(now) =>
      if IsLive(l.row) && l.row.deletedAt.None? then l.(row := l.row.(deletedAt := Some(now))) else l
    case Restore => if l.row.deletedAt.Some? && l.row.purgedAt.None? then l.(row := l.row.(deletedAt := None)) else l
    case Edit(_, _, _, _, _, eta) =>
      if !IsLive(l.row) || l.row.deletedAt.Some? || l.row.status == Delivered then l
      else l.(row := EditRow(l.row, e),
              tasks := if Reschedules(l.row, eta) then l.tasks + {RatingSendTime(eta.value)} else l.tasks)
    case Resend(newPhone, withinQuota) =>
      if !IsLive(l.row) || l.onTheWay == 0 || l.token.None? || !withinQuota then l
      else
        l.(row := if newPhone.Some? then l.row.(phone := newPhone.value.0, risky := newPhone.value.1) else l.row,
           calls := l.calls + 1)
    case RatingTask(now, optedOut, withinQuota) =>
      if TooEarly(l.row, now) || !MaySendRating(l, optedOut, withinQuota) then l
      else l.(ratings := l.ratings + [RatingSent(l.row.etaAt, now)], calls := l.calls + 1)
    case EscalationTask(calls) =>
      if l.onTheWay == 0 || l.token.None? then l else l.(calls := l.calls + calls)
    case Purge(cutoff, now) =>
      if Retention.IsDue(l.row, cutoff) then l.(row := Retention.EraseRecipient(l.row, now), token := None) else l
  }

  function Run(l: Life, events: seq<Event>): Life {
    if events == [] then l else Do(Run(l, events[..|events| - 1]), events[|events| - 1])
  }

  /** `create_delivery` */
  predicate IsNew(l: Life) {
    && l.row.status == New && l.row.startedAt.None? && l.row.etaAt.None? && l.row.deliveredAt.None?
    && l.row.deletedAt.None? && l.row.purgedAt.None?
    && l.token.None? && l.onTheWay == 0 && l.ratings == [] && l.tasks == {} && l.calls == 0
  }

  // ---- each operation, on the fields of the row ------------------------------------------------------------

  /**
   A start changes a row that is not erased, not on the way and without a notification, within the quotas, once an
   arrival time is known, the shop's own before the route's; its link is new only where there was none, for seven days.
   */
  lemma StartMeans(l: Life, now: Time, manualEta: Option<Time>, route: Option<Time>, withinQuota: bool)
    ensures var l', eta := Do(l, Start(now, manualEta, route, withinQuota)), if manualEta.Some? then manualEta else route;
            if l.row.purgedAt.None? && l.row.status != OnTheWayStatus && l.onTheWay == 0 && eta.Some? && withinQuota
            then
              && l'.row == l.row.(status := OnTheWayStatus, startedAt := Some(now), etaAt := eta)
              && l'.token == (if l.token.Some? then l.token else Some(now + 7 * 86400))
              && l'.onTheWay == 1 && l'.calls == l.calls + 1 && l'.ratings == l.ratings
              && l'.tasks == l.tasks + {RatingSendTime(eta.value)}
            else l' == l
  {
  }

  /** A confirmation counts while the link has not expired, whoever erased or deleted the row; it is stamped once. */
  lemma DeliverMeans(l: Life, now: Time)
    ensures Do(l, Deliver(now))
         == if l.row.purgedAt.None? && l.row.status != Delivered
            then l.(row := l.row.(status := Delivered, deliveredAt := Some(now))) else l
    ensures Do(l, Received(now))
         == if l.token.Some? && now <= l.token.value && l.row.status != Delivered
            then l.(row := l.row.(status := Delivered, deliveredAt := Some(now))) else l
  {
  }

  lemma MarksMean(l: Life, now: Time)
    ensures Do(l, Ready) == if l.row.purgedAt.None? && l.row.status == New then l.(row := l.row.(status := Created)) else l
    ensures Do(l, Delete(now))
         == if l.row.purgedAt.None? && l.row.deletedAt.None? then l.(row := l.row.(deletedAt := Some(now))) else l
    ensures Do(l, Restore)
         == if l.row.deletedAt.Some? && l.row.purgedAt.None? then l.(row := l.row.(deletedAt := None)) else l
  {
  }

  /**
   An edit changes a live delivery that is not delivered: the risk with the number only, the place with the address
   only, the arrival time only on the way and to another one, which then gets a task of its own.
   */
  lemma EditMeans(l: Life, e: Event)
    requires e.Edit?
    ensures var l' := Do(l, e);
            if l.row.purgedAt.None? && l.row.deletedAt.None? && l.row.status != Delivered then
              var moved := e.eta.Some? && l.row.status == OnTheWayStatus && e.eta != l.row.etaAt;
              && l'.row.name == e.name && l'.row.phone == e.phone
              && l'.row.risky == (if e.phone == l.row.phone then l.row.risky else e.risky)
              && (e.address == l.row.address ==> l'.row.address == l.row.address && l'.row.point == l.row.point)
              && (e.address != l.row.address && e.geocode.None? ==> l'.row.address == e.address && l'.row.point == None)
              && (e.address != l.row.address && e.geocode.Some? ==>
                   l'.row.address == e.geocode.value.0 && l'.row.point == Some(e.geocode.value.1))
              && l'.row.etaAt == (if moved then e.eta else l.row.etaAt)
              && l'.tasks == l.tasks + (if moved then {RatingSendTime(e.eta.value)} else {})
              && l'.row == l.row.(name := l'.row.name, phone := l'.row.phone, risky := l'.row.risky, address := l'.row.address,
                                  point := l'.row.point, etaAt := l'.row.etaAt)
              && l' == l.(row := l'.row, tasks := l'.tasks)
            else l' == l
  {
    hide RatingSendTime;
  }

  /** A resend sends, to a new number if one is given, for a started live delivery with a link. */
  lemma ResendMeans(l: Life, newPhone: Option<(Phone, bool)>, withinQuota: bool)
    ensures Do(l, Resend(newPhone, withinQuota))
         == if l.row.purgedAt.None? && l.onTheWay > 0 && l.token.Some? && withinQuota
            then l.(row := if newPhone.Some? then l.row.(phone := newPhone.value.0, risky := newPhone.value.1) else l.row,
                    calls := l.calls + 1)
            else l
  {
  }

  /**
   A rating task sends the one rating request exactly when there was none, the link is there, the recipient did not
   opt out, the quotas have room, and its time has come, give or take five minutes.
   */
  lemma RatingMeans(l: Life, now: Time, optedOut: bool, withinQuota: bool)
    ensures Do(l, RatingTask(now, optedOut, withinQuota))
         == if l.ratings == [] && l.token.Some? && !optedOut && withinQuota
               && (l.row.etaAt.None? || RatingSendTime(l.row.etaAt.value) <= now + 300)
            then l.(ratings := [RatingSent(l.row.etaAt, now)], calls := l.calls + 1)
            else l
  {
    hide RatingSendTime;
    assert [] + [RatingSent(l.row.etaAt, now)] == [RatingSent(l.row.etaAt, now)];
  }

  /** The purge erases the recipient of a row that is due, and its link; an escalation task only calls. */
  lemma PurgeMeans(l: Life, days: nat, now: Time)
    ensures var l' := Do(l, Purge(Retention.Cutoff(now, days), now));
            && Retention.RowPurged(l.row, l'.row, days, now)
            && l' == l.(row := l'.row, token := if l'.row == l.row then l.token else None)
    ensures forall calls :: Do(l, EscalationTask(calls)) == if l.onTheWay > 0 && l.token.Some? then l.(calls := l.calls + calls) else l
  {
    Retention.DueMeans(l.row, days, now);
  }

  // ---- every run ---------------------------------------------------------------------------------------

  predicate Sound(l: Life) {
    && l.onTheWay <= 1
    && (l.row.status == OnTheWayStatus ==> l.onTheWay == 1)
    && (l.onTheWay == 1 ==>
         && (l.row.status == OnTheWayStatus || l.row.status == Delivered)
         && l.row.startedAt.Some? && l.row.etaAt.Some?
         && RatingSendTime(l.row.etaAt.value) in l.tasks)
    && (l.token.Some? <==> l.onTheWay == 1 && IsLive(l.row))
    && (!IsLive(l.row) ==> !Retention.IsActive(l.row))
    && |l.ratings| <= 1
    && (|l.ratings| == 1 ==>
         l.ratings[0].eta.Some? && RatingSendTime(l.ratings[0].eta.value) <= l.ratings[0].at + EARLY)
  }

  lemma StepIsSound(l: Life, e: Event)
    requires Sound(l)
    ensures Sound(Do(l, e))
  {
  }

  /**
   In every run: on the way means exactly one notification, a start time and an arrival time; a started
   delivery has a rating task at the time its current arrival asks for; at most one rating request is made,
   never more than five minutes early; a token exists exactly while the delivery is started and not erased.
   */
  lemma {:induction false} RunIsSound(l: Life, events: seq<Event>)
    requires IsNew(l)
    ensures Sound(Run(l, events))
  {
    hide Do;
    if events != [] {
      RunIsSound(l, events[..|events| - 1]);
      StepIsSound(Run(l, events[..|events| - 1]), events[|events| - 1]);
    }
  }

  lemma {:induction false} RunStaysSound(l: Life, events: seq<Event>)
    requires Sound(l)
    ensures Sound(Run(l, events))
  {
    hide Do, Sound;
    if events != [] {
      RunStaysSound(l, events[..|events| - 1]);
      StepIsSound(Run(l, events[..|events| - 1]), events[|events| - 1]);
    }
  }

  lemma StepKeepsStarted(l: Life, e: Event)
    requires Sound(l) && l.onTheWay == 1
    ensures var l' := Do(l, e);
            && l'.onTheWay == 1 && l'.row.startedAt == l.row.startedAt
            && (l'.row.status == l.row.status || (l.row.status == OnTheWayStatus && l'.row.status == Delivered))
            && (l.row.status == Delivered ==> l'.row.etaAt == l.row.etaAt && l'.row.deliveredAt == l.row.deliveredAt)
  {
  }

  /** Once the recipient was told, the status only goes from on the way to delivered, and delivered is final. */
  lemma {:induction false} StartedIsOneWay(l: Life, events: seq<Event>)
    requires Sound(l) && l.onTheWay == 1
    ensures var l' := Run(l, events);
            && l'.onTheWay == 1 && l'.row.startedAt == l.row.startedAt
            && (l'.row.status == l.row.status || (l.row.status == OnTheWayStatus && l'.row.status == Delivered))
            && (l.row.status == Delivered ==> l'.row.etaAt == l.row.etaAt && l'.row.deliveredAt == l.row.deliveredAt)
  {
    hide Do, Sound;
    if events != [] {
      StartedIsOneWay(l, events[..|events| - 1]);
      RunStaysSound(l, events[..|events| - 1]);
      StepKeepsStarted(Run(l, events[..|events| - 1]), events[|events| - 1]);
    }
  }

  /** Before that it is not: a start takes a delivery from delivered to on the way exactly when it never started. */
  lemma DeliveredCanStart(l: Life, now: Time, eta: Time)
    requires Sound(l) && IsLive(l.row) && l.row.status == Delivered
    ensures Do(l, Start(now, Some(eta), None, true)).row.status == OnTheWayStatus <==> l.onTheWay == 0
  {
  }

  lemma PurgedStaysPut(l: Life, e: Event)
    requires Sound(l) && !IsLive(l.row)
    ensures Do(l, e) == l
  {
  }

  /** An erased delivery is inert: nothing changes it, brings it back, or sends for it. */
  lemma {:induction false} PurgedIsInert(l: Life, events: seq<Event>)
    requires Sound(l) && !IsLive(l.row)
    ensures Run(l, events) == l
  {
    hide Do, Sound, IsLive;
    if events != [] {
      PurgedIsInert(l, events[..|events| - 1]);
      PurgedStaysPut(l, events[|events| - 1]);
    }
  }

  /** Only a delivery that is deleted or delivered is ever erased, and with it goes all its recipient's data. */
  lemma OnlyFinalIsPurged(l: Life, e: Event)
    requires IsLive(l.row) && !IsLive(Do(l, e).row)
    ensures e.Purge? && !Retention.IsActive(l.row)
    ensures var row := Do(l, e).row; row.name == "" && row.phone == "" && row.address == "" && row.point.None?
    ensures Do(l, e).token.None?
  {
  }

  /**
   Whatever edits moved the arrival time: the task for the current one was scheduled, and when it fires, up
   to five minutes early, the guard lets it through and the request goes out.
   */
  lemma TaskIsNotDropped(l: Life, events: seq<Event>, now: Time)
    requires IsNew(l)
    requires var s := Run(l, events);
             s.onTheWay == 1 && IsLive(s.row) && s.ratings == []
             && s.row.etaAt.Some? && now + EARLY >= RatingSendTime(s.row.etaAt.value)
    ensures var s := Run(l, events);
            && RatingSendTime(s.row.etaAt.value) in s.tasks
            && Do(s, RatingTask(now, false, true)).ratings == [RatingSent(s.row.etaAt, now)]
  {
    RunIsSound(l, events);
    hide Run, RatingSendTime;
  }

  // ---- the operations as the code does them ---------------------------------------------------------------

  datatype StartResult = Started(eta: Time) | Already(known: Option<Time>) | NeedsManualEta | QuotaExceeded

  /** A delivery found by a view or an endpoint, with its related rows. */
  class DeliveryRecord {
    const shop: ShopId
    const createdAt: Time
    var name: string
    var phone: Phone
    var risky: bool
    var address: string
    var point: Option<(int, int)>
    var status: Status
    var startedAt: Option<Time>
    var etaAt: Option<Time>
    var deliveredAt: Option<Time>
    var deletedAt: Option<Time>
    var purgedAt: Option<Time>
    var token: Option<Time>
    var onTheWay: nat
    var ratings: seq<RatingSent>
    var tasks: set<Time>
    var calls: nat

    constructor (shop: ShopId, name: string, phone: Phone, risky: bool, address: string, point: Option<(int, int)>, now: Time)
      ensures IsNew(Snapshot())
    {
      this.shop, this.createdAt, this.name, this.phone, this.risky := shop, now, name, phone, risky;
      this.address, this.point, status := address, point, New;
      startedAt, etaAt, deliveredAt, deletedAt, purgedAt := None, None, None, None, None;
      token, onTheWay, ratings, tasks, calls := None, 0, [], {}, 0;
    }

    function Row(): Delivery
      reads this
    {
      Delivery(shop, name, phone, risky, address, point, status, createdAt, startedAt, etaAt, deliveredAt, deletedAt, purgedAt)
    }

    ghost function Snapshot(): Life
      reads this
    {
      Life(Row(), token, onTheWay, ratings, tasks, calls)
    }

    /** The fields a start saves. */
    method SaveStart(now: Time, eta: Time)
      modifies this`status, this`startedAt, this`etaAt
      ensures Row() == old(Row()).(status := OnTheWayStatus, startedAt := Some(now), etaAt := Some(eta))
    {
      status, startedAt, etaAt := OnTheWayStatus, Some(now), Some(eta);
    }

    method StartDelivery(now: Time, manualEta: Option<Time>, route: Option<Time>, withinQuota: bool) returns (r: StartResult)
      requires IsLive(Row())
      modifies this
      ensures Snapshot() == Do(old(Snapshot()), Start(now, manualEta, route, withinQuota))
      ensures r.Started? <==> onTheWay > old(onTheWay)
      ensures r.Already? <==> AlreadyStarted(old(Snapshot()))
    {
      hide RatingSendTime;
      if status == OnTheWayStatus || onTheWay > 0 {
        return Already(etaAt);
      }
      var eta := if manualEta.Some? then manualEta else route;
      if eta.None? {
        return NeedsManualEta;
      }
      if !withinQuota {
        return QuotaExceeded;
      }
      SaveStart(now, eta.value);
      var link := if token.Some? then token else Some(now + TOKEN_TTL_DAYS * DAY);
      token, onTheWay, calls, tasks := link, onTheWay + 1, calls + 1, tasks + {RatingSendTime(eta.value)};
      r := Started(eta.value);
    }

    method MarkReady() returns (changed: bool)
      requires IsLive(Row())
      modifies this`status
      ensures Snapshot() == Do(old(Snapshot()), Ready)
      ensures changed <==> Snapshot() != old(Snapshot())
    {
      changed := status == New;
      if changed {
        status := Created;
      }
    }

    method MarkDelivered(now: Time) returns (changed: bool)
      modifies this`status, this`deliveredAt
      ensures Row() == DeliveredAt(old(Row()), now)
      ensures IsLive(old(Row())) ==> Snapshot() == Do(old(Snapshot()), Deliver(now))
      ensures changed <==> old(status) != Delivered
    {
      changed := status != Delivered;
      if changed {
        status, deliveredAt := Delivered, Some(now);
      }
    }

    /** `mark_received`: the recipient confirms, through an unexpired link. */
    method MarkReceived(now: Time)
      modifies this`status, this`deliveredAt
      ensures Snapshot() == Do(old(Snapshot()), Received(now))
    {
      if token.Some? && token.value >= now {
        var _ := MarkDelivered(now);
      }
    }

    method SoftDelete(now: Time) returns (changed: bool)
      requires IsLive(Row())
      modifies this`deletedAt
      ensures Snapshot() == Do(old(Snapshot()), Delete(now))
      ensures changed <==> Snapshot() != old(Snapshot())
    {
      changed := deletedAt.None?;
      if changed {
        deletedAt := Some(now);
      }
    }

    method Undelete() returns (changed: bool)
      modifies this`deletedAt
      ensures Snapshot() == Do(old(Snapshot()), Restore)
      ensures changed <==> Snapshot() != old(Snapshot())
    {
      changed := deletedAt.Some? && purgedAt.None?;
      if changed {
        deletedAt := None;
      }
    }

    /** What an edit changes of the recipient, and the names of the fields. */
    method SaveRecipient(e: Event) returns (fields: set<string>)
      requires e.Edit?
      modifies this`name, this`phone, this`risky, this`address, this`point
      ensures Row() == EditRow(old(Row()), e.(eta := None))
      ensures fields == ChangedFields(old(Row()), e.(eta := None))
    {
      fields := {};
      if e.name != name {
        name, fields := e.name, fields + {"recipient_name"};
      }
      if e.phone != phone {
        phone, risky, fields := e.phone, e.risky, fields + {"recipient_phone"};
      }
      if e.address != address {
        address := if e.geocode.Some? then e.geocode.value.0 else e.address;
        point := if e.geocode.Some? then Some(e.geocode.value.1) else None;
        fields := fields + {"dest_address"};
      }
    }

    /** `update_delivery`: the names of the fields changed, or none at all as the exception for a delivered delivery. */
    method UpdateDelivery(e: Event) returns (changed: Option<set<string>>)
      requires e.Edit? && IsLive(Row()) && deletedAt.None?
      modifies this
      ensures Snapshot() == Do(old(Snapshot()), e)
      ensures changed == None <==> old(status) == Delivered
      ensures changed.Some? ==> changed.value == ChangedFields(old(Row()), e)
    {
      hide RatingSendTime, EditRow, ChangedFields;
      if status == Delivered {
        return None;
      }
      RescheduleApart(Row(), e);
      var reschedule := e.eta.Some? && status == OnTheWayStatus && e.eta != etaAt;
      var fields := SaveRecipient(e);
      if reschedule {
        etaAt, tasks := e.eta, tasks + {RatingSendTime(e.eta.value)};
        fields := fields + {"eta_at"};
      }
      changed := Some(fields);
    }

    method ResendOnTheWay(newPhone: Option<(Phone, bool)>, withinQuota: bool)
      requires IsLive(Row())
      modifies this
      ensures Snapshot() == Do(old(Snapshot()), Resend(newPhone, withinQuota))
    {
      if onTheWay == 0 || token.None? || !withinQuota {
        return;
      }
      if newPhone.Some? {
        phone, risky := newPhone.value.0, newPhone.value.1;
      }
      calls := calls + 1;
    }

    /** The task callback and `send_rating_request`. */
    method SendRating(now: Time, optedOut: bool, withinQuota: bool)
      modifies this`ratings, this`calls
      ensures Snapshot() == Do(old(Snapshot()), RatingTask(now, optedOut, withinQuota))
    {
      if etaAt.Some? && RatingSendTime(etaAt.value) > now + EARLY {
        return;
      }
      if ratings != [] || token.None? || optedOut || !withinQuota {
        return;
      }
      ratings := ratings + [RatingSent(etaAt, now)];
      calls := calls + 1;
    }
  }
}
