/**
 notifications/quotas.py: every message to a recipient first takes a row in the send log, or is
 refused. Rows are counted by what they match; the caps are results about those counts.
 */
module Quotas {
  import opened Prelude
  import opened Calendar
  import opened Deliveries
  import Billing

  datatype Kind = OnTheWay | Resend | RatingRequest

  datatype Row = Row(shop: ShopId, delivery: Option<DeliveryId>, phone: Phone, kind: Kind, createdAt: Time)

  /** What a send asks for. `risky`: the number is not a Serbian mobile. */
  datatype Request = Request(shop: ShopId, delivery: Option<DeliveryId>, phone: Phone, kind: Kind, risky: bool)

  datatype Settings = Settings(
    trialDay: nat, trialMonth: nat, shopDay: nat, shopMonth: nat, recipientDay: nat, resends: nat, globalDay: nat)

  datatype Shop = Shop(verified: bool, dailyLimit: Option<nat>, monthlyLimit: Option<nat>)

  datatype Limits = Limits(day: nat, month: nat, trial: bool, unpaid: bool)

  datatype Code = ResendLimit | DestinationNotAllowed | RecipientDailyLimit | DailyLimit | MonthlyLimit | GlobalLimit

  // ---- limits of a shop -----------------------------------------------------------------------

  /** `shop_limits`, for a shop with or without access (billing). */
  function ShopLimits(cfg: Settings, shop: Shop, access: bool): Limits {
    var trial := !shop.verified || !access;
    Limits(
      if shop.dailyLimit.Some? then shop.dailyLimit.value else if trial then cfg.trialDay else cfg.shopDay,
      if shop.monthlyLimit.Some? then shop.monthlyLimit.value else if trial then cfg.trialMonth else cfg.shopMonth,
      trial, !access)
  }

  /** Once access is lost, a shop has the trial limits unless it has its own, and keeps them until the next event. */
  lemma LimitsWithoutAccess(
      cfg: Settings, shop: Shop, billing: Billing.Config, created: Time, history: Option<seq<Billing.Event>>,
      now: Time, later: Time)
    requires now <= later && !Billing.HasAccess(billing, Billing.AccountAfter(created, history), now)
    ensures var l := ShopLimits(cfg, shop, Billing.HasAccess(billing, Billing.AccountAfter(created, history), later));
            && l.trial && l.unpaid
            && l.day == (if shop.dailyLimit.Some? then shop.dailyLimit.value else cfg.trialDay)
            && l.month == (if shop.monthlyLimit.Some? then shop.monthlyLimit.value else cfg.trialMonth)
  {
    Billing.AccessOnlyExpires(billing, created, history, now, later);
  }

  /** A limit of its own wins; the trial limits are for a shop that is unverified or without access, and no other. */
  lemma LimitsAreTheShops(cfg: Settings, shop: Shop, access: bool)
    ensures var l := ShopLimits(cfg, shop, access);
            && (l.unpaid <==> !access)
            && (l.trial <==> !shop.verified || !access)
            && (shop.dailyLimit.Some? ==> l.day == shop.dailyLimit.value)
            && (shop.monthlyLimit.Some? ==> l.month == shop.monthlyLimit.value)
            && (shop.dailyLimit.None? ==> l.day == if shop.verified && access then cfg.shopDay else cfg.trialDay)
            && (shop.monthlyLimit.None? ==> l.month == if shop.verified && access then cfg.shopMonth else cfg.trialMonth)
  {
  }

  // ---- counting rows --------------------------------------------------------------------------

  datatype Filter =
    | ShopSince(shop: ShopId, from: Time)
    | PhoneSince(phone: Phone, from: Time)
    | AllSince(from: Time)
    | ShopOnDay(shop: ShopId, day: nat)
    | ShopInMonth(shop: ShopId, month: nat)
    | PhoneOnDay(phone: Phone, day: nat)
    | AllOnDay(day: nat)
    | OfDelivery(delivery: DeliveryId, kind: Kind)

  predicate Matches(f: Filter, r: Row) {
    match f
    case ShopSince(shop, from) => r.shop == shop && r.createdAt >= from
    case PhoneSince(phone, from) => r.phone == phone && r.createdAt >= from
    case AllSince(from) => r.createdAt >= from
    case ShopOnDay(shop, day) => r.shop == shop && DayOf(r.createdAt) == day
    case ShopInMonth(shop, month) => r.shop == shop && MonthOf(DayOf(r.createdAt)) == month
    case PhoneOnDay(phone, day) => r.phone == phone && DayOf(r.createdAt) == day
    case AllOnDay(day) => DayOf(r.createdAt) == day
    case OfDelivery(d, kind) => r.delivery == Some(d) && r.kind == kind
  }

  function CountRows(rows: seq<Row>, f: Filter): nat {
    if rows == [] then 0
    else CountRows(rows[..|rows| - 1], f) + if Matches(f, rows[|rows| - 1]) then 1 else 0
  }

  lemma CountAppend(rows: seq<Row>, r: Row, f: Filter)
    ensures CountRows(rows + [r], f) == CountRows(rows, f) + if Matches(f, r) then 1 else 0
  {
  }

  lemma {:induction false} CountMonotone(rows: seq<Row>, f: Filter, g: Filter)
    requires forall i :: 0 <= i < |rows| && Matches(f, rows[i]) ==> Matches(g, rows[i])
    ensures CountRows(rows, f) <= CountRows(rows, g)
  {
    if rows != [] {
      CountMonotone(rows[..|rows| - 1], f, g);
    }
  }

  lemma {:induction false} CountSame(rows: seq<Row>, others: seq<Row>, f: Filter)
    requires |rows| == |others|
    requires forall i :: 0 <= i < |rows| ==> (Matches(f, rows[i]) <==> Matches(f, others[i]))
    ensures CountRows(rows, f) == CountRows(others, f)
  {
    if rows != [] {
      CountSame(rows[..|rows| - 1], others[..|rows| - 1], f);
    }
  }

  /** A count is the number of the matching rows. */
  lemma {:induction false} CountIsCardinality(rows: seq<Row>, f: Filter)
    ensures CountRows(rows, f) == |Indices(rows, f)|
  {
    if rows == [] {
      assert Indices(rows, f) == {};
    } else {
      var n := |rows| - 1;
      CountIsCardinality(rows[..n], f);
      IndicesSplit(rows, f);
    }
  }

  function Indices(rows: seq<Row>, f: Filter): set<nat> {
    set i | 0 <= i < |rows| && Matches(f, rows[i])
  }

  lemma IndicesSplit(rows: seq<Row>, f: Filter)
    requires rows != []
    ensures var n := |rows| - 1;
            |Indices(rows, f)| == |Indices(rows[..n], f)| + if Matches(f, rows[n]) then 1 else 0
  {
    hide Matches;
    var n := |rows| - 1;
    var t := Indices(rows[..n], f);
    assert n !in t;
    assert Indices(rows, f) == if Matches(f, rows[n]) then t + {n} else t;
  }

  lemma {:induction false} CountConcat(a: seq<Row>, b: seq<Row>, f: Filter)
    ensures CountRows(a + b, f) == CountRows(a, f) + CountRows(b, f)
  {
    hide Matches;
    if b == [] {
      assert a + b == a;
    } else {
      CountConcat(a, b[..|b| - 1], f);
      assert (a + b)[..|a + b| - 1] == a + b[..|b| - 1];
    }
  }

  /** What each count over the log counts: sends of a shop, to a number, of all shops, since a time or on a day. */
  lemma CountMeans(rows: seq<Row>, shop: ShopId, phone: Phone, from: Time, day: nat)
    ensures CountRows(rows, ShopSince(shop, from)) == |set i | 0 <= i < |rows| && rows[i].shop == shop && rows[i].createdAt >= from|
    ensures CountRows(rows, PhoneSince(phone, from)) == |set i | 0 <= i < |rows| && rows[i].phone == phone && rows[i].createdAt >= from|
    ensures CountRows(rows, AllSince(from)) == |set i | 0 <= i < |rows| && rows[i].createdAt >= from|
    ensures CountRows(rows, ShopOnDay(shop, day)) == |set i | 0 <= i < |rows| && rows[i].shop == shop && rows[i].createdAt / 86400 == day|
    ensures CountRows(rows, PhoneOnDay(phone, day)) == |set i | 0 <= i < |rows| && rows[i].phone == phone && rows[i].createdAt / 86400 == day|
    ensures CountRows(rows, AllOnDay(day)) == |set i | 0 <= i < |rows| && rows[i].createdAt / 86400 == day|
  {
    CountIsCardinality(rows, ShopSince(shop, from));
    CountIsCardinality(rows, PhoneSince(phone, from));
    CountIsCardinality(rows, AllSince(from));
    assert Indices(rows, ShopSince(shop, from)) == set i | 0 <= i < |rows| && rows[i].shop == shop && rows[i].createdAt >= from;
    assert Indices(rows, PhoneSince(phone, from)) == set i | 0 <= i < |rows| && rows[i].phone == phone && rows[i].createdAt >= from;
    assert Indices(rows, AllSince(from)) == set i | 0 <= i < |rows| && rows[i].createdAt >= from;
    DayCountMeans(rows, shop, phone, day);
  }

  lemma DayCountMeans(rows: seq<Row>, shop: ShopId, phone: Phone, day: nat)
    ensures CountRows(rows, ShopOnDay(shop, day)) == |set i | 0 <= i < |rows| && rows[i].shop == shop && rows[i].createdAt / 86400 == day|
    ensures CountRows(rows, PhoneOnDay(phone, day)) == |set i | 0 <= i < |rows| && rows[i].phone == phone && rows[i].createdAt / 86400 == day|
    ensures CountRows(rows, AllOnDay(day)) == |set i | 0 <= i < |rows| && rows[i].createdAt / 86400 == day|
  {
    CountIsCardinality(rows, ShopOnDay(shop, day));
    CountIsCardinality(rows, PhoneOnDay(phone, day));
    CountIsCardinality(rows, AllOnDay(day));
    assert Indices(rows, ShopOnDay(shop, day)) == set i | 0 <= i < |rows| && rows[i].shop == shop && rows[i].createdAt / 86400 == day;
    assert Indices(rows, PhoneOnDay(phone, day)) == set i | 0 <= i < |rows| && rows[i].phone == phone && rows[i].createdAt / 86400 == day;
    assert Indices(rows, AllOnDay(day)) == set i | 0 <= i < |rows| && rows[i].createdAt / 86400 == day;
  }

  /** The sends of a shop in a month of the calendar; the sends of one kind for a delivery. */
  lemma CountMeansToo(rows: seq<Row>, shop: ShopId, month: nat, d: DeliveryId, kind: Kind)
    ensures CountRows(rows, ShopInMonth(shop, month))
         == |set i | 0 <= i < |rows| && rows[i].shop == shop && MonthOf(rows[i].createdAt / 86400) == month|
    ensures CountRows(rows, OfDelivery(d, kind)) == |set i | 0 <= i < |rows| && rows[i].delivery == Some(d) && rows[i].kind == kind|
  {
    CountIsCardinality(rows, ShopInMonth(shop, month));
    CountIsCardinality(rows, OfDelivery(d, kind));
    assert Indices(rows, ShopInMonth(shop, month))
        == set i | 0 <= i < |rows| && rows[i].shop == shop && MonthOf(rows[i].createdAt / 86400) == month;
    assert Indices(rows, OfDelivery(d, kind)) == set i | 0 <= i < |rows| && rows[i].delivery == Some(d) && rows[i].kind == kind;
  }

  // ---- the checks -----------------------------------------------------------------------------

  /** What each refusal means, in the words of the settings. */
  predicate Blocks(code: Code, cfg: Settings, limits: Limits, rows: seq<Row>, q: Request, now: Time) {
    match code
    case ResendLimit =>
      q.kind == Resend && q.delivery.Some? && CountRows(rows, OfDelivery(q.delivery.value, Resend)) >= cfg.resends
    case DestinationNotAllowed => limits.trial && q.risky
    case RecipientDailyLimit => CountRows(rows, PhoneSince(q.phone, DayStart(now))) >= cfg.recipientDay
    case DailyLimit => CountRows(rows, ShopSince(q.shop, DayStart(now))) >= limits.day
    case MonthlyLimit => CountRows(rows, ShopSince(q.shop, MonthStart(now))) >= limits.month
    case GlobalLimit => CountRows(rows, AllSince(DayStart(now))) >= cfg.globalDay
  }

  /** `_check`: which refusal is raised, if any. */
  function Verdict(cfg: Settings, limits: Limits, rows: seq<Row>, q: Request, now: Time): Option<Code> {
    if Blocks(ResendLimit, cfg, limits, rows, q, now) then Some(ResendLimit)
    else if Blocks(DestinationNotAllowed, cfg, limits, rows, q, now) then Some(DestinationNotAllowed)
    else if Blocks(RecipientDailyLimit, cfg, limits, rows, q, now) then Some(RecipientDailyLimit)
    else if Blocks(DailyLimit, cfg, limits, rows, q, now) then Some(DailyLimit)
    else if Blocks(MonthlyLimit, cfg, limits, rows, q, now) then Some(MonthlyLimit)
    else if Blocks(GlobalLimit, cfg, limits, rows, q, now) then Some(GlobalLimit)
    else None
  }

  /** The place of a check in the documented order. */
  function Order(code: Code): nat {
    match code
    case ResendLimit => 1
    case DestinationNotAllowed => 2
    case RecipientDailyLimit => 3
    case DailyLimit | MonthlyLimit => 4
    case GlobalLimit => 5
  }

  /** A request passes when nothing blocks it; else it gets a refusal no earlier check would give. */
  lemma VerdictIsFirstBlock(cfg: Settings, limits: Limits, rows: seq<Row>, q: Request, now: Time)
    ensures Verdict(cfg, limits, rows, q, now).None?
       <==> forall code :: !Blocks(code, cfg, limits, rows, q, now)
    ensures forall code :: Verdict(cfg, limits, rows, q, now) == Some(code) ==>
              && Blocks(code, cfg, limits, rows, q, now)
              && forall earlier :: Order(earlier) < Order(code) ==> !Blocks(earlier, cfg, limits, rows, q, now)
  {
  }

  /**
   In terms of the log alone: which refusal is raised, and when none is. Only sends of the same shop count towards its
   day and month, only sends to the same number towards the number's, and only resends of the delivery towards its.
   */
  lemma VerdictMeans(cfg: Settings, limits: Limits, rows: seq<Row>, q: Request, now: Time)
    ensures var today, month := DayStart(now), MonthStart(now);
            var resends := set i | 0 <= i < |rows| && rows[i].delivery == q.delivery && rows[i].kind == Resend;
            var toNumber := set i | 0 <= i < |rows| && rows[i].phone == q.phone && rows[i].createdAt >= today;
            var ofShopToday := set i | 0 <= i < |rows| && rows[i].shop == q.shop && rows[i].createdAt >= today;
            var ofShopThisMonth := set i | 0 <= i < |rows| && rows[i].shop == q.shop && rows[i].createdAt >= month;
            var ofAllToday := set i | 0 <= i < |rows| && rows[i].createdAt >= today;
            (Verdict(cfg, limits, rows, q, now)
            == if q.kind == Resend && q.delivery.Some? && |resends| >= cfg.resends then Some(ResendLimit)
            else if limits.trial && q.risky then Some(DestinationNotAllowed)
            else if |toNumber| >= cfg.recipientDay then Some(RecipientDailyLimit)
            else if |ofShopToday| >= limits.day then Some(DailyLimit)
            else if |ofShopThisMonth| >= limits.month then Some(MonthlyLimit)
            else if |ofAllToday| >= cfg.globalDay then Some(GlobalLimit)
            else None)
  {
    CountMeans(rows, q.shop, q.phone, DayStart(now), 0);
    CountMeans(rows, q.shop, q.phone, MonthStart(now), 0);
    if q.delivery.Some? {
      CountMeansToo(rows, q.shop, 0, q.delivery.value, Resend);
    }
    hide CountRows, DayStart, MonthStart, MonthOf;
  }

  /** A send of another shop, to another number, for another delivery, brings on no refusal but the service's own. */
  lemma OthersDoNotCount(cfg: Settings, limits: Limits, a: seq<Row>, r: Row, b: seq<Row>, q: Request, now: Time, code: Code)
    requires r.shop != q.shop && r.phone != q.phone && r.delivery != q.delivery && code != GlobalLimit
    ensures Verdict(cfg, limits, a + [r] + b, q, now) == Some(code) <==> Verdict(cfg, limits, a + b, q, now) == Some(code)
  {
    OneMoreRow(a, r, b, ShopSince(q.shop, DayStart(now)));
    OneMoreRow(a, r, b, ShopSince(q.shop, MonthStart(now)));
    OneMoreRow(a, r, b, PhoneSince(q.phone, DayStart(now)));
    if q.delivery.Some? {
      OneMoreRow(a, r, b, OfDelivery(q.delivery.value, Resend));
    }
    hide CountRows, DayStart, MonthStart;
  }

  lemma OneMoreRow(a: seq<Row>, r: Row, b: seq<Row>, f: Filter)
    ensures CountRows(a + [r] + b, f) == CountRows(a + b, f) + if Matches(f, r) then 1 else 0
  {
    CountConcat(a + [r], b, f);
    CountAppend(a, r, f);
    CountConcat(a, b, f);
    hide CountRows, Matches;
  }

  function RowOf(q: Request, now: Time): Row {
    Row(q.shop, q.delivery, q.phone, q.kind, now)
  }

  // ---- one accepted send keeps each cap -----------------------------------------------------------

  /** The "since" counts of the check bound the counts of the day and month of the new row. */
  lemma SinceCoversDay(rows: seq<Row>, q: Request, now: Time)
    ensures CountRows(rows, ShopOnDay(q.shop, DayOf(now))) <= CountRows(rows, ShopSince(q.shop, DayStart(now)))
    ensures CountRows(rows, PhoneOnDay(q.phone, DayOf(now))) <= CountRows(rows, PhoneSince(q.phone, DayStart(now)))
    ensures CountRows(rows, AllOnDay(DayOf(now))) <= CountRows(rows, AllSince(DayStart(now)))
    ensures CountRows(rows, ShopInMonth(q.shop, MonthOf(DayOf(now)))) <= CountRows(rows, ShopSince(q.shop, MonthStart(now)))
  {
  }

  /** An accepted request has room left under every cap, on the very day and month it is counted in. */
  lemma AcceptedHasRoom(cfg: Settings, limits: Limits, rows: seq<Row>, q: Request, now: Time)
    requires Verdict(cfg, limits, rows, q, now).None?
    ensures CountRows(rows, ShopOnDay(q.shop, DayOf(now))) < limits.day
    ensures CountRows(rows, ShopInMonth(q.shop, MonthOf(DayOf(now)))) < limits.month
    ensures CountRows(rows, PhoneOnDay(q.phone, DayOf(now))) < cfg.recipientDay
    ensures CountRows(rows, AllOnDay(DayOf(now))) < cfg.globalDay
    ensures q.kind == Resend && q.delivery.Some? ==> CountRows(rows, OfDelivery(q.delivery.value, Resend)) < cfg.resends
    ensures limits.trial ==> !q.risky
  {
    SinceCoversDay(rows, q, now);
    VerdictIsFirstBlock(cfg, limits, rows, q, now);
    hide Verdict, CountRows, MonthStart, MonthOf;
    assert !Blocks(DailyLimit, cfg, limits, rows, q, now) && !Blocks(MonthlyLimit, cfg, limits, rows, q, now);
    assert !Blocks(RecipientDailyLimit, cfg, limits, rows, q, now) && !Blocks(GlobalLimit, cfg, limits, rows, q, now);
    assert !Blocks(ResendLimit, cfg, limits, rows, q, now) && !Blocks(DestinationNotAllowed, cfg, limits, rows, q, now);
  }

  // ---- the log as the code writes it ----------------------------------------------------------------

  class SendLog {
    var rows: seq<Row>

    constructor ()
      ensures rows == []
    {
      rows := [];
    }

    method CountOf(f: Filter) returns (n: nat)
      ensures n == CountRows(rows, f)
    {
      n := 0;
      var i := 0;
      while i < |rows|
        invariant 0 <= i <= |rows| && n == CountRows(rows[..i], f)
      {
        CountAppend(rows[..i], rows[i], f);
        assert rows[..i + 1] == rows[..i] + [rows[i]];
        n, i := n + (if Matches(f, rows[i]) then 1 else 0), i + 1;
      }
      assert rows[..|rows|] == rows;
    }

    /** `_check`, exit by exit. */
    method Check(cfg: Settings, limits: Limits, q: Request, now: Time) returns (refusal: Option<Code>)
      ensures refusal == Verdict(cfg, limits, rows, q, now)
    {
      hide CountRows;
      if q.kind == Resend && q.delivery.Some? {
        var n := CountOf(OfDelivery(q.delivery.value, Resend));
        if n >= cfg.resends {
          return Some(ResendLimit);
        }
      }
      if limits.trial && q.risky {
        return Some(DestinationNotAllowed);
      }
      var today := DayStart(now);
      var n := CountOf(PhoneSince(q.phone, today));
      if n >= cfg.recipientDay {
        return Some(RecipientDailyLimit);
      }
      n := CountOf(ShopSince(q.shop, today));
      if n >= limits.day {
        return Some(DailyLimit);
      }
      n := CountOf(ShopSince(q.shop, MonthStart(now)));
      if n >= limits.month {
        return Some(MonthlyLimit);
      }
      n := CountOf(AllSince(today));
      refusal := if n >= cfg.globalDay then Some(GlobalLimit) else None;
    }

    /** `reserve_send`: a refused request leaves the log alone, an accepted one adds its row. */
    method ReserveSend(cfg: Settings, limits: Limits, q: Request, now: Time) returns (refusal: Option<Code>)
      modifies this
      ensures refusal == Verdict(cfg, limits, old(rows), q, now)
      ensures rows == if refusal.None? then old(rows) + [Row(q.shop, q.delivery, q.phone, q.kind, now)] else old(rows)
    {
      refusal := Check(cfg, limits, q, now);
      if refusal.None? {
        rows := rows + [RowOf(q, now)];
      }
    }
  }
}
