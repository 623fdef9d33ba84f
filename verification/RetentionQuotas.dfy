/**
 The purge empties phone numbers in the very log the send quotas count (deliveries/retention.py,
 notifications/quotas.py). No later reservation can tell.
 */
module RetentionQuotas {
  import opened Prelude
  import opened Calendar
  import opened Deliveries
  import opened Quotas
  import opened Retention

  /** The same log, but for phones emptied in rows from before `from`. */
  ghost predicate AgreeSince(a: seq<Row>, b: seq<Row>, from: int) {
    && |a| == |b|
    && forall i :: 0 <= i < |a| ==> a[i] == b[i] || (a[i].createdAt < from && b[i] == a[i].(phone := ""))
  }

  lemma PurgedLogAgrees(db: Db, p: Part)
    requires SomeDue(db, p.cutoff, p.ds, p.phones, p.geos)
    ensures AgreeSince(db.sends, ErasePart(db, p).sends, p.cutoff)
  {
  }

  /** The filters of a check at `now`. */
  predicate IsCheckFilter(f: Filter, now: Time) {
    f.ShopSince? || f.AllSince? || f.OfDelivery? || (f.PhoneSince? && f.from == DayStart(now))
  }

  lemma SameCount(a: seq<Row>, b: seq<Row>, from: int, f: Filter, now: Time)
    requires AgreeSince(a, b, from) && from <= DayStart(now) && IsCheckFilter(f, now)
    ensures CountRows(a, f) == CountRows(b, f)
  {
  }

  lemma SameVerdict(cfg: Settings, limits: Limits, a: seq<Row>, b: seq<Row>, from: int, q: Request, now: Time)
    requires AgreeSince(a, b, from) && from <= DayStart(now)
    ensures Verdict(cfg, limits, a, q, now) == Verdict(cfg, limits, b, q, now)
  {
    hide CountRows, AgreeSince, MonthStart;
    if q.delivery.Some? {
      SameCount(a, b, from, OfDelivery(q.delivery.value, Resend), now);
    }
    SameCount(a, b, from, PhoneSince(q.phone, DayStart(now)), now);
    SameCount(a, b, from, ShopSince(q.shop, DayStart(now)), now);
    SameCount(a, b, from, ShopSince(q.shop, MonthStart(now)), now);
    SameCount(a, b, from, AllSince(DayStart(now)), now);
  }

  // ---- whole runs --------------------------------------------------------------------------------

  datatype Reservation = Reservation(limits: Limits, q: Request, now: Time)

  function LogAfter(cfg: Settings, rows: seq<Row>, rs: seq<Reservation>): seq<Row> {
    if rs == [] then rows
    else
      var log, r := LogAfter(cfg, rows, rs[..|rs| - 1]), rs[|rs| - 1];
      if Verdict(cfg, r.limits, log, r.q, r.now).None? then log + [RowOf(r.q, r.now)] else log
  }

  function Verdicts(cfg: Settings, rows: seq<Row>, rs: seq<Reservation>): seq<Option<Code>> {
    if rs == [] then []
    else
      var front, r := rs[..|rs| - 1], rs[|rs| - 1];
      Verdicts(cfg, rows, front) + [Verdict(cfg, r.limits, LogAfter(cfg, rows, front), r.q, r.now)]
  }

  lemma {:induction false} RunsAgree(cfg: Settings, a: seq<Row>, b: seq<Row>, from: int, rs: seq<Reservation>)
    requires AgreeSince(a, b, from)
    requires forall i :: 0 <= i < |rs| ==> from <= DayStart(rs[i].now)
    ensures AgreeSince(LogAfter(cfg, a, rs), LogAfter(cfg, b, rs), from)
    ensures Verdicts(cfg, a, rs) == Verdicts(cfg, b, rs)
  {
    hide Verdict, DayStart;
    if rs != [] {
      var front, r := rs[..|rs| - 1], rs[|rs| - 1];
      RunsAgree(cfg, a, b, from, front);
      SameVerdict(cfg, r.limits, LogAfter(cfg, a, front), LogAfter(cfg, b, front), from, r.q, r.now);
    }
  }

  /** A purge that keeps data for `days` days, and reservations at or after it. */
  ghost predicate PurgedBefore(db: Db, p: Part, days: nat, rs: seq<Reservation>) {
    && p.cutoff == Cutoff(p.now, days) && SomeDue(db, p.cutoff, p.ds, p.phones, p.geos)
    && forall i :: 0 <= i < |rs| ==> p.now <= rs[i].now
  }

  /** No reservation after any purge, full or cut short, gets another answer than without it. */
  ghost predicate Invisible(days: nat) {
    forall cfg: Settings, db: Db, p: Part, rs: seq<Reservation> :: PurgedBefore(db, p, days, rs) ==>
      Verdicts(cfg, ErasePart(db, p).sends, rs) == Verdicts(cfg, db.sends, rs)
  }

  lemma LaterAnswersAgree(cfg: Settings, db: Db, p: Part, days: nat, rs: seq<Reservation>)
    requires days >= 1 && PurgedBefore(db, p, days, rs)
    ensures Verdicts(cfg, ErasePart(db, p).sends, rs) == Verdicts(cfg, db.sends, rs)
  {
    PurgedLogAgrees(db, p);
    forall i | 0 <= i < |rs| ensures p.cutoff <= DayStart(rs[i].now) {
      assert days * DAY >= DAY;
    }
    RunsAgree(cfg, db.sends, ErasePart(db, p).sends, p.cutoff, rs);
  }

  /** Kept for no day at all, a number could be messaged past its daily cap. */
  lemma ZeroDaysShows()
    ensures !Invisible(0)
  {
    var cfg, limits := Settings(9, 9, 9, 9, 1, 9, 9), Limits(9, 9, false, false);
    var row := Row(0, None, "number", OnTheWay, 0);
    var db, p := Db(map[], {}, [row], map[]), Part(1, 1, {}, {0}, {});
    var q := Request(0, None, "number", OnTheWay, false);
    var rs := [Reservation(limits, q, 1)];
    assert 0 in PhonesDue(db, 1);
    assert PurgedBefore(db, p, 0, rs);
    var after := row.(phone := "");
    assert ErasePart(db, p).sends == [after];
    ZeroDaysVerdicts(cfg, limits, row, after, q);
    assert rs[..0] == [];
    hide Verdict, ErasePart, PurgedBefore, CountRows;
    assert Verdicts(cfg, [row], rs) == [Verdict(cfg, limits, [row], q, 1)];
    assert Verdicts(cfg, [after], rs) == [Verdict(cfg, limits, [after], q, 1)];
  }

  lemma ZeroDaysVerdicts(cfg: Settings, limits: Limits, row: Row, after: Row, q: Request)
    requires cfg == Settings(9, 9, 9, 9, 1, 9, 9) && limits == Limits(9, 9, false, false)
    requires row == Row(0, None, "number", OnTheWay, 0) && after == row.(phone := "")
    requires q == Request(0, None, "number", OnTheWay, false)
    ensures Verdict(cfg, limits, [row], q, 1) != Verdict(cfg, limits, [after], q, 1)
  {
    assert Matches(PhoneSince("number", DayStart(1)), row);
    assert !Matches(PhoneSince("number", DayStart(1)), after);
    CountAppend([], row, PhoneSince("number", DayStart(1)));
    CountAppend([], after, PhoneSince("number", DayStart(1)));
    assert [] + [row] == [row] && [] + [after] == [after];
    assert Verdict(cfg, limits, [row], q, 1) == Some(RecipientDailyLimit);
  }

  /** The purge is invisible to the quotas exactly when it keeps data for a day; the configuration must say thirty. */
  lemma PurgeIsInvisibleToQuotas(days: nat)
    ensures Invisible(days) <==> days >= 1
    ensures forall batch :: ValidSettings(days, batch) ==> Invisible(days)
    ensures forall batch :: ValidSettings(days, batch) <==> days >= 30 && batch >= 1
  {
    if days == 0 {
      ZeroDaysShows();
    } else {
      forall cfg: Settings, db: Db, p: Part, rs: seq<Reservation> | PurgedBefore(db, p, days, rs)
        ensures Verdicts(cfg, ErasePart(db, p).sends, rs) == Verdicts(cfg, db.sends, rs)
      {
        LaterAnswersAgree(cfg, db, p, days, rs);
      }
    }
  }
}
