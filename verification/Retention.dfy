/**
 deliveries/retention.py: erasing recipient data some days after a delivery is final. The batched, time
 limited job is proved to do what one declarative erasure does, however it is cut up.
 */
module Retention {
  import opened Prelude
  import opened Calendar
  import opened Deliveries
  import opened Quotas

  /** `sends` is the send log, its rows numbered from 0; `geocodes` the creation times of cached addresses. */
  datatype Db = Db(
    deliveries: map<DeliveryId, Delivery>, tokens: set<DeliveryId>, sends: seq<Row>, geocodes: map<nat, Time>)

  datatype Counts = Counts(deliveries: nat, tokens: nat, phones: nat, geocodes: nat)

  datatype PurgeResult = PurgeResult(counts: Counts, staleActive: nat, complete: bool)

  const MIN_RETENTION_DAYS := 30

  /** `validate_retention_settings` accepts these. */
  predicate ValidSettings(days: int, batch: int) {
    days >= MIN_RETENTION_DAYS && batch >= 1
  }

  /** `retention_cutoff` */
  function Cutoff(now: Time, days: nat): int {
    now - days * DAY
  }

  // ---- what is due -------------------------------------------------------------------------------

  /** `_last_known_at` */
  function LastKnownAt(d: Delivery): Time {
    if d.deliveredAt.Some? then d.deliveredAt.value
    else if d.etaAt.Some? then d.etaAt.value
    else if d.startedAt.Some? then d.startedAt.value
    else d.createdAt
  }

  predicate IsDue(d: Delivery, cutoff: int) {
    && d.purgedAt.None?
    && ((d.deletedAt.Some? && d.deletedAt.value < cutoff)
        || (d.deletedAt.None? && d.status == Delivered && LastKnownAt(d) < cutoff))
  }

  predicate IsActive(d: Delivery) {
    d.status != Delivered && d.deletedAt.None?
  }

  function DeliveriesDue(db: Db, cutoff: int): set<DeliveryId> {
    set d | d in db.deliveries && IsDue(db.deliveries[d], cutoff)
  }

  function StaleActive(db: Db, cutoff: int): set<DeliveryId> {
    set d | d in db.deliveries
            && db.deliveries[d].purgedAt.None? && IsActive(db.deliveries[d]) && LastKnownAt(db.deliveries[d]) < cutoff
  }

  function PhonesDue(db: Db, cutoff: int): set<nat> {
    set i | 0 <= i < |db.sends| && db.sends[i].createdAt < cutoff && db.sends[i].phone != ""
  }

  function GeocodesDue(db: Db, cutoff: int): set<nat> {
    set g | g in db.geocodes && db.geocodes[g] < cutoff
  }

  // ---- erasing ---------------------------------------------------------------------------------------

  function EraseRecipient(d: Delivery, now: Time): Delivery {
    d.(name := "", phone := "", address := "", point := None, purgedAt := Some(now))
  }

  /** Erase these deliveries, these phones and these cached addresses, whatever they are. */
  function Erase(db: Db, ds: set<DeliveryId>, phones: set<nat>, geos: set<nat>, now: Time): Db {
    Db(map d | d in db.deliveries :: if d in ds then EraseRecipient(db.deliveries[d], now) else db.deliveries[d],
       db.tokens - ds,
       seq(|db.sends|, i requires 0 <= i < |db.sends| =>
         if i in phones then db.sends[i].(phone := "") else db.sends[i]),
       db.geocodes - geos)
  }

  function CountsOf(db: Db, ds: set<DeliveryId>, phones: set<nat>, geos: set<nat>): Counts {
    Counts(|ds|, |db.tokens * ds|, |phones|, |geos|)
  }

  /** The declarative purge: everything due at `cutoff`, at once. */
  function EraseAll(db: Db, cutoff: int, now: Time): Db {
    Erase(db, DeliveriesDue(db, cutoff), PhonesDue(db, cutoff), GeocodesDue(db, cutoff), now)
  }

  /** What a dry run answers. */
  function CountAll(db: Db, cutoff: int): Counts {
    CountsOf(db, DeliveriesDue(db, cutoff), PhonesDue(db, cutoff), GeocodesDue(db, cutoff))
  }

  // ---- the same, on the dates of a row ------------------------------------------------------------------

  /** The first of the times known of a delivery, among delivery, arrival, start and creation, is before `t`. */
  predicate LastSeenBefore(d: Delivery, t: int) {
    && (d.deliveredAt.Some? ==> d.deliveredAt.value < t)
    && (d.deliveredAt.None? && d.etaAt.Some? ==> d.etaAt.value < t)
    && (d.deliveredAt.None? && d.etaAt.None? && d.startedAt.Some? ==> d.startedAt.value < t)
    && (d.deliveredAt.None? && d.etaAt.None? && d.startedAt.None? ==> d.createdAt < t)
  }

  /** What a purge at `now` that keeps data for `days` days makes of a delivery row. */
  predicate RowPurged(before: Delivery, after: Delivery, days: nat, now: Time) {
    var t := now - days * 86400;
    if before.purgedAt.None?
       && (if before.deletedAt.Some? then before.deletedAt.value < t else before.status == Delivered && LastSeenBefore(before, t))
    then after == before.(name := "", phone := "", address := "", point := None, purgedAt := Some(now))
    else after == before
  }

  /** And of the whole database: no other row is touched, and tokens go with their deliveries. */
  ghost predicate IsPurged(before: Db, after: Db, days: nat, now: Time) {
    var t := now - days * 86400;
    && after.deliveries.Keys == before.deliveries.Keys
    && (forall d :: d in before.deliveries ==> RowPurged(before.deliveries[d], after.deliveries[d], days, now))
    && (forall d :: d in after.tokens <==>
         d in before.tokens && !(d in before.deliveries && after.deliveries[d] != before.deliveries[d]))
    && |after.sends| == |before.sends|
    && (forall i :: 0 <= i < |before.sends| ==>
         after.sends[i] == if before.sends[i].createdAt < t then before.sends[i].(phone := "") else before.sends[i])
    && (forall g :: g in after.geocodes <==> g in before.geocodes && before.geocodes[g] >= t)
    && (forall g :: g in after.geocodes ==> after.geocodes[g] == before.geocodes[g])
  }

  /** A run cut short: each row is as before or as a whole run leaves it. */
  ghost predicate IsPartlyPurged(before: Db, after: Db, days: nat, now: Time) {
    var t := now - days * 86400;
    && after.deliveries.Keys == before.deliveries.Keys
    && (forall d :: d in before.deliveries ==>
         after.deliveries[d] == before.deliveries[d] || RowPurged(before.deliveries[d], after.deliveries[d], days, now))
    && (forall d :: d in after.tokens <==>
         d in before.tokens && !(d in before.deliveries && after.deliveries[d] != before.deliveries[d]))
    && |after.sends| == |before.sends|
    && (forall i :: 0 <= i < |before.sends| ==>
         after.sends[i] == before.sends[i] || (before.sends[i].createdAt < t && after.sends[i] == before.sends[i].(phone := "")))
    && (forall g :: g in after.geocodes ==> g in before.geocodes && after.geocodes[g] == before.geocodes[g])
    && (forall g :: g in before.geocodes && before.geocodes[g] >= t ==> g in after.geocodes)
  }

  lemma DueMeans(d: Delivery, days: nat, now: Time)
    ensures IsDue(d, Cutoff(now, days)) ==> RowPurged(d, EraseRecipient(d, now), days, now) && EraseRecipient(d, now) != d
    ensures !IsDue(d, Cutoff(now, days)) ==> RowPurged(d, d, days, now)
  {
  }

  /** The declarative purge on the dates of the rows. */
  lemma EraseAllMeans(db: Db, days: nat, now: Time)
    ensures IsPurged(db, EraseAll(db, Cutoff(now, days), now), days, now)
  {
    forall d | d in db.deliveries
      ensures RowPurged(db.deliveries[d], EraseAll(db, Cutoff(now, days), now).deliveries[d], days, now)
      ensures EraseAll(db, Cutoff(now, days), now).deliveries[d] != db.deliveries[d] <==> d in DeliveriesDue(db, Cutoff(now, days))
    {
      DueMeans(db.deliveries[d], days, now);
    }
    hide RowPurged, IsDue;
  }

  lemma EraseSomeMeans(db: Db, days: nat, now: Time, ds: set<DeliveryId>, phones: set<nat>, geos: set<nat>)
    requires SomeDue(db, Cutoff(now, days), ds, phones, geos)
    ensures var after := Erase(db, ds, phones, geos, now);
            && IsPartlyPurged(db, after, days, now)
            && ds == (set d | d in db.deliveries && after.deliveries[d] != db.deliveries[d])
            && phones == (set i | 0 <= i < |db.sends| && after.sends[i] != db.sends[i])
            && geos == (set g | g in db.geocodes && g !in after.geocodes)
  {
    forall d | d in db.deliveries
      ensures d in ds ==> RowPurged(db.deliveries[d], EraseRecipient(db.deliveries[d], now), days, now)
      ensures d in ds ==> EraseRecipient(db.deliveries[d], now) != db.deliveries[d]
    {
      DueMeans(db.deliveries[d], days, now);
    }
    hide RowPurged, IsDue, EraseRecipient;
  }

  /** Active deliveries that nothing happened to for the whole time: counted, and kept. */
  lemma StaleMeans(db: Db, days: nat, now: Time)
    ensures StaleActive(db, Cutoff(now, days))
         == set d | d in db.deliveries && db.deliveries[d].purgedAt.None? && db.deliveries[d].deletedAt.None?
                    && db.deliveries[d].status != Delivered && LastSeenBefore(db.deliveries[d], now - days * 86400)
  {
  }

  // ---- erasing in parts --------------------------------------------------------------------------------

  /** Some of what is due. */
  ghost predicate SomeDue(db: Db, cutoff: int, ds: set<DeliveryId>, phones: set<nat>, geos: set<nat>) {
    ds <= DeliveriesDue(db, cutoff) && phones <= PhonesDue(db, cutoff) && geos <= GeocodesDue(db, cutoff)
  }

  /** What has been erased is not due any more, and nothing else stops being due. */
  lemma ErasedIsNotDue(db: Db, cutoff: int, ds: set<DeliveryId>, phones: set<nat>, geos: set<nat>, now: Time)
    ensures var db' := Erase(db, ds, phones, geos, now);
            && DeliveriesDue(db', cutoff) == DeliveriesDue(db, cutoff) - ds
            && PhonesDue(db', cutoff) == PhonesDue(db, cutoff) - phones
            && GeocodesDue(db', cutoff) == GeocodesDue(db, cutoff) - geos
  {
  }

  function Unstamp(d: Delivery): Delivery {
    if d.purgedAt.Some? then d.(purgedAt := Some(0)) else d
  }

  /** Equal but for when the purged rows were stamped. */
  function Unstamped(db: Db): Db {
    db.(deliveries := map d | d in db.deliveries :: Unstamp(db.deliveries[d]))
  }

  ghost predicate SameData(a: Db, b: Db) {
    Unstamped(a) == Unstamped(b)
  }

  lemma EraseTwiceDeliveries(
      db: Db, ds: set<DeliveryId>, phones: set<nat>, geos: set<nat>, now: Time,
      ds': set<DeliveryId>, phones': set<nat>, geos': set<nat>, later: Time, stamp: Time)
    ensures Unstamped(Erase(Erase(db, ds, phones, geos, now), ds', phones', geos', later)).deliveries
         == Unstamped(Erase(db, ds + ds', phones + phones', geos + geos', stamp)).deliveries
  {
  }

  /** Erasing some and then some more is erasing both, but for the stamps. */
  lemma EraseTwice(
      db: Db, ds: set<DeliveryId>, phones: set<nat>, geos: set<nat>, now: Time,
      ds': set<DeliveryId>, phones': set<nat>, geos': set<nat>, later: Time, stamp: Time)
    ensures SameData(Erase(Erase(db, ds, phones, geos, now), ds', phones', geos', later),
                     Erase(db, ds + ds', phones + phones', geos + geos', stamp))
  {
    EraseTwiceDeliveries(db, ds, phones, geos, now, ds', phones', geos', later, stamp);
    hide EraseRecipient;
    var a := Erase(Erase(db, ds, phones, geos, now), ds', phones', geos', later);
    var b := Erase(db, ds + ds', phones + phones', geos + geos', stamp);
    assert a.sends == b.sends;
    assert a.geocodes == b.geocodes;
    assert a.tokens == b.tokens;
  }

  /** With one stamp the two are the same, exactly. */
  lemma EraseMore(
      db: Db, ds: set<DeliveryId>, phones: set<nat>, geos: set<nat>, ds': set<DeliveryId>, phones': set<nat>,
      geos': set<nat>, now: Time)
    ensures Erase(Erase(db, ds, phones, geos, now), ds', phones', geos', now)
         == Erase(db, ds + ds', phones + phones', geos + geos', now)
  {
  }

  lemma EraseNothing(db: Db, now: Time)
    ensures Erase(db, {}, {}, {}, now) == db
  {
  }

  // ---- any number of runs ---------------------------------------------------------------------------------

  /** What one run of the job erased. */
  datatype Part = Part(cutoff: int, now: Time, ds: set<DeliveryId>, phones: set<nat>, geos: set<nat>)

  function ErasePart(db: Db, p: Part): Db {
    Erase(db, p.ds, p.phones, p.geos, p.now)
  }

  function AfterParts(db: Db, parts: seq<Part>): Db
    decreases parts
  {
    if parts == [] then db else AfterParts(ErasePart(db, parts[0]), parts[1..])
  }

  /** Each run erases some of what is due at its own cutoff, none later than `cutoff`. */
  ghost predicate AreParts(db: Db, parts: seq<Part>, cutoff: int)
    decreases parts
  {
    parts != [] ==>
      && parts[0].cutoff <= cutoff
      && SomeDue(db, parts[0].cutoff, parts[0].ds, parts[0].phones, parts[0].geos)
      && AreParts(ErasePart(db, parts[0]), parts[1..], cutoff)
  }

  function Plus(a: Counts, b: Counts): Counts {
    Counts(a.deliveries + b.deliveries, a.tokens + b.tokens, a.phones + b.phones, a.geocodes + b.geocodes)
  }

  function SumOfParts(db: Db, parts: seq<Part>): Counts
    decreases parts
  {
    if parts == [] then Counts(0, 0, 0, 0)
    else Plus(CountsOf(db, parts[0].ds, parts[0].phones, parts[0].geos), SumOfParts(ErasePart(db, parts[0]), parts[1..]))
  }

  /** All parts as one, stamped `now`. */
  function Union(parts: seq<Part>, cutoff: int, now: Time): Part {
    if parts == [] then Part(cutoff, now, {}, {}, {})
    else
      var p, rest := parts[0], Union(parts[1..], cutoff, now);
      Part(cutoff, now, p.ds + rest.ds, p.phones + rest.phones, p.geos + rest.geos)
  }

  lemma DueGrows(db: Db, cutoff: int, later: int)
    requires cutoff <= later
    ensures DeliveriesDue(db, cutoff) <= DeliveriesDue(db, later)
    ensures PhonesDue(db, cutoff) <= PhonesDue(db, later) && GeocodesDue(db, cutoff) <= GeocodesDue(db, later)
  {
  }

  lemma DisjointCounts(db: Db, p: Part, ds: set<DeliveryId>, phones: set<nat>, geos: set<nat>)
    requires ds !! p.ds && phones !! p.phones && geos !! p.geos
    ensures Plus(CountsOf(db, p.ds, p.phones, p.geos), CountsOf(ErasePart(db, p), ds, phones, geos))
         == CountsOf(db, p.ds + ds, p.phones + phones, p.geos + geos)
  {
    assert ErasePart(db, p).tokens == db.tokens - p.ds;
    hide Erase;
    assert db.tokens * (p.ds + ds) == db.tokens * p.ds + (db.tokens - p.ds) * ds;
  }

  lemma {:induction false} PartsAreOne(db: Db, parts: seq<Part>, cutoff: int, now: Time)
    requires AreParts(db, parts, cutoff)
    ensures var u := Union(parts, cutoff, now);
            && SomeDue(db, cutoff, u.ds, u.phones, u.geos)
            && SameData(AfterParts(db, parts), ErasePart(db, u))
            && SumOfParts(db, parts) == CountsOf(db, u.ds, u.phones, u.geos)
            && DeliveriesDue(AfterParts(db, parts), cutoff) == DeliveriesDue(db, cutoff) - u.ds
            && PhonesDue(AfterParts(db, parts), cutoff) == PhonesDue(db, cutoff) - u.phones
            && GeocodesDue(AfterParts(db, parts), cutoff) == GeocodesDue(db, cutoff) - u.geos
    decreases parts
  {
    hide Erase, DeliveriesDue, PhonesDue, GeocodesDue, Unstamped, CountsOf;
    if parts == [] {
      EraseNothing(db, now);
      NoCounts(db);
    } else {
      var p, rest := parts[0], Union(parts[1..], cutoff, now);
      var db' := ErasePart(db, p);
      PartsAreOne(db', parts[1..], cutoff, now);
      DueGrows(db, p.cutoff, cutoff);
      ErasedIsNotDue(db, cutoff, p.ds, p.phones, p.geos, p.now);
      EraseTwice(db, p.ds, p.phones, p.geos, p.now, rest.ds, rest.phones, rest.geos, now, now);
      DisjointCounts(db, p, rest.ds, rest.phones, rest.geos);
    }
  }

  lemma NoCounts(db: Db)
    ensures CountsOf(db, {}, {}, {}) == Counts(0, 0, 0, 0)
  {
  }

  predicate NothingDue(db: Db, cutoff: int) {
    DeliveriesDue(db, cutoff) == {} && PhonesDue(db, cutoff) == {} && GeocodesDue(db, cutoff) == {}
  }

  /**
   Runs cut short anywhere, at cutoffs no later than the last: once nothing is due at the last cutoff, the
   data is what one erasure at that cutoff leaves, but for stamps, and the runs' counts add up to its counts.
   */
  lemma RunsAddUp(db: Db, parts: seq<Part>, cutoff: int, now: Time)
    requires AreParts(db, parts, cutoff) && NothingDue(AfterParts(db, parts), cutoff)
    ensures SameData(AfterParts(db, parts), EraseAll(db, cutoff, now))
    ensures SumOfParts(db, parts) == CountAll(db, cutoff)
  {
    hide Erase, DeliveriesDue, PhonesDue, GeocodesDue, Unstamped, CountsOf, AfterParts, AreParts, SumOfParts, Union;
    PartsAreOne(db, parts, cutoff, now);
    UnionStamp(parts, cutoff, now);
    var u := Union(parts, cutoff, now);
    AllOf(u.ds, DeliveriesDue(db, cutoff));
    AllOf(u.phones, PhonesDue(db, cutoff));
    AllOf(u.geos, GeocodesDue(db, cutoff));
  }

  lemma UnionStamp(parts: seq<Part>, cutoff: int, now: Time)
    ensures Union(parts, cutoff, now).now == now
  {
  }

  lemma AllOf(part: set<nat>, all: set<nat>)
    requires part <= all && all - part == {}
    ensures part == all
  {
    forall x | x in all ensures x in part {
      assert x in part || x in all - part;
    }
  }

  // ---- interference --------------------------------------------------------------------------------------------

  /** The locked part of a batch: of the ids read earlier, erase those due now. */
  function EraseLocked(db: Db, ids: set<DeliveryId>, cutoff: int, now: Time): Db {
    Erase(db, DeliveriesDue(db, cutoff) * ids, {}, {}, now)
  }

  /** The delivery rows `after` erased, as they were. */
  ghost predicate WasErased(before: Db, after: Db, d: DeliveryId) {
    d in before.deliveries && (d !in after.deliveries || after.deliveries[d] != before.deliveries[d])
  }

  /**
   Whatever the database was when the ids were read: only rows due under the lock are erased, none of them
   active, all their recipient data goes, their tokens and no others go, and all else stays.
   */
  lemma LockedErasesOnlyDue(db: Db, ids: set<DeliveryId>, cutoff: int, now: Time)
    ensures var db' := EraseLocked(db, ids, cutoff, now);
            && db'.deliveries.Keys == db.deliveries.Keys && db'.sends == db.sends && db'.geocodes == db.geocodes
            && (forall d :: WasErased(db, db', d) <==> d in ids && d in db.deliveries && IsDue(db.deliveries[d], cutoff))
            && (forall d :: WasErased(db, db', d) ==>
                 && !IsActive(db.deliveries[d])
                 && db'.deliveries[d] == db.deliveries[d].(name := "", phone := "", address := "", point := None,
                                                           purgedAt := Some(now)))
            && (forall d :: d in db.tokens - db'.tokens <==> d in db.tokens && WasErased(db, db', d))
            && db'.tokens <= db.tokens
  {
  }

  /** The first loop with anything happening between its statements; `erased` are the rows it erased, as they were. */
  datatype Job = Job(db: Db, ids: set<DeliveryId>, erased: map<DeliveryId, Delivery>, count: nat)

  datatype Step =
    | ReadIds(ids: set<DeliveryId>)
    | Interfere(db: Db)
    | LockAndErase

  function Locked(j: Job, cutoff: int): set<DeliveryId> {
    DeliveriesDue(j.db, cutoff) * j.ids
  }

  function Take(j: Job, step: Step, cutoff: int, now: Time): Job {
    match step
    case ReadIds(ids) => j.(ids := ids)
    case Interfere(db) => j.(db := db)
    case LockAndErase =>
      j.(db := EraseLocked(j.db, j.ids, cutoff, now), count := j.count + |Locked(j, cutoff)|,
         erased := map d | d in j.erased.Keys + Locked(j, cutoff) ::
           if d in Locked(j, cutoff) then j.db.deliveries[d] else j.erased[d])
  }

  function JobAfter(db: Db, steps: seq<Step>, cutoff: int, now: Time): Job {
    if steps == [] then Job(db, {}, map[], 0)
    else Take(JobAfter(db, steps[..|steps| - 1], cutoff, now), steps[|steps| - 1], cutoff, now)
  }

  /** Nothing but the job stamps or unstamps a row, at least not one the job has erased. */
  ghost predicate StampsStay(db: Db, steps: seq<Step>, cutoff: int, now: Time) {
    forall i :: 0 <= i < |steps| && steps[i].Interfere? ==>
      forall d :: d in JobAfter(db, steps[..i], cutoff, now).erased && d in steps[i].db.deliveries ==>
        steps[i].db.deliveries[d].purgedAt.Some?
  }

  ghost predicate AllFinal(j: Job, cutoff: int) {
    forall d :: d in j.erased ==> IsDue(j.erased[d], cutoff) && !IsActive(j.erased[d])
  }

  ghost predicate AllStamped(j: Job) {
    forall d :: d in j.erased && d in j.db.deliveries ==> j.db.deliveries[d].purgedAt.Some?
  }

  lemma StepStaysFinal(j: Job, step: Step, cutoff: int, now: Time)
    requires AllFinal(j, cutoff)
    ensures AllFinal(Take(j, step, cutoff, now), cutoff)
  {
    hide Erase, LastKnownAt;
  }

  lemma EraseIsCounted(j: Job, cutoff: int, now: Time)
    requires AllStamped(j) && j.count == |j.erased|
    ensures var j' := Take(j, LockAndErase, cutoff, now); AllStamped(j') && j'.count == |j'.erased|
  {
    var j' := Take(j, LockAndErase, cutoff, now);
    forall d | d in Locked(j, cutoff) ensures d !in j.erased {
    }
    assert j'.erased.Keys == j.erased.Keys + Locked(j, cutoff);
    assert |j.erased.Keys + Locked(j, cutoff)| == |j.erased.Keys| + |Locked(j, cutoff)|;
  }

  /**
   Restored, edited, started, deleted: whatever happens between reading ids and locking, on any number of
   stale ids, the job only ever erases rows that are due and final at that moment. And as long as nothing
   else takes stamps away, it erases no row twice, so that its count is the number of rows it erased.
   */
  lemma {:induction false} JobErasesOnlyDue(db: Db, steps: seq<Step>, cutoff: int, now: Time)
    ensures var j := JobAfter(db, steps, cutoff, now);
            && AllFinal(j, cutoff)
            && (StampsStay(db, steps, cutoff, now) ==> AllStamped(j) && j.count == |j.erased|)
  {
    if steps != [] {
      var front, n := steps[..|steps| - 1], |steps| - 1;
      JobErasesOnlyDue(db, front, cutoff, now);
      StepStaysFinal(JobAfter(db, front, cutoff, now), steps[n], cutoff, now);
      hide AllFinal, EraseLocked, DeliveriesDue;
      if StampsStay(db, steps, cutoff, now) {
        FrontKeepsStamps(db, steps, cutoff, now);
        if steps[n].LockAndErase? {
          EraseIsCounted(JobAfter(db, front, cutoff, now), cutoff, now);
        }
      }
    }
  }

  lemma FrontKeepsStamps(db: Db, steps: seq<Step>, cutoff: int, now: Time)
    requires steps != [] && StampsStay(db, steps, cutoff, now)
    ensures StampsStay(db, steps[..|steps| - 1], cutoff, now)
  {
    hide JobAfter;
    var front := steps[..|steps| - 1];
    assert forall i :: 0 <= i < |front| ==> front[..i] == steps[..i] && front[i] == steps[i];
  }

  // ---- the job ---------------------------------------------------------------------------------------------------

  lemma {:induction false} Least(s: set<nat>) returns (m: nat)
    requires s != {}
    ensures m in s && forall x :: x in s ==> m <= x
    decreases |s|
  {
    var a :| a in s;
    var rest := s - {a};
    m := a;
    if rest != {} {
      var r := Least(rest);
      m := if r < a then r else a;
    }
    forall x | x in s ensures m <= x {
      assert x == a || x in rest;
    }
  }

  /** The database as the job sees it. The clock is looked at before every batch; `left` is how often it is
      found before the deadline, None when there is no deadline. */
  class Store {
    var db: Db
    var left: Option<nat>

    constructor (db: Db, budget: Option<nat>)
      ensures this.db == db && left == budget
    {
      this.db, left := db, budget;
    }

    method OutOfTime() returns (out: bool)
      modifies this`left
      ensures out <==> old(left) == Some(0)
      ensures left == if !out && old(left).Some? then Some(old(left).value - 1) else old(left)
    {
      out := left == Some(0);
      if !out && left.Some? {
        left := Some(left.value - 1);
      }
    }

    /** `_ids`: the lowest `batch` of the ids due. */
    method Ids(due: set<nat>, batch: nat) returns (ids: set<nat>)
      ensures ids <= due && |ids| == (if |due| < batch then |due| else batch)
      ensures forall x, y :: x in ids && y in due - ids ==> x < y
    {
      ids := {};
      while |ids| < batch && due - ids != {}
        invariant ids <= due && |ids| <= batch
        invariant forall x, y :: x in ids && y in due - ids ==> x < y
        decreases due - ids
      {
        ghost var _ := Least(due - ids);
        var m :| m in due - ids && forall x :: x in due - ids ==> m <= x;
        ids := ids + {m};
      }
      SubsetIsSmaller(ids, due);
      if due - ids == {} {
        AllOf(ids, due);
      }
    }

    /** The first loop. Nothing else runs, so what was read is still due under the lock. */
    method EraseDeliveries(cutoff: int, now: Time, batch: nat)
      returns (rows: nat, tokens: nat, complete: bool, ghost ds: set<DeliveryId>)
      requires batch >= 1
      modifies this
      ensures ds <= DeliveriesDue(old(db), cutoff) && db == Erase(old(db), ds, {}, {}, now)
      ensures rows == |ds| && tokens == |old(db).tokens * ds|
      ensures complete ==> ds == DeliveriesDue(old(db), cutoff)
      ensures Spent(old(left), left, complete, |ds|)
    {
      hide Erase, DeliveriesDue;
      ghost var start := db;
      ghost var due := DeliveriesDue(db, cutoff);
      rows, tokens, complete, ds := 0, 0, true, {};
      EraseNothing(db, now);
      while true
        invariant ds <= due && db == Erase(start, ds, {}, {}, now)
        invariant rows == |ds| && tokens == |start.tokens * ds|
        invariant Running(old(left), left, |ds|)
        decreases due - ds
      {
        var out := OutOfTime();
        if out {
          complete := false;
          break;
        }
        ErasedIsNotDue(start, cutoff, ds, {}, {}, now);
        var ids := Ids(DeliveriesDue(db, cutoff), batch);
        if ids == {} {
          AllOf(ds, due);
          break;
        }
        var locked := DeliveriesDue(db, cutoff) * ids;
        if locked == {} {
          continue;
        }
        tokens := tokens + |db.tokens * locked|;
        rows := rows + |locked|;
        db := Erase(db, locked, {}, {}, now);
        MoreDeliveries(start, ds, locked, now);
        ds := ds + locked;
      }
    }

    /** The second loop. */
    method ErasePhones(cutoff: int, now: Time, batch: nat)
      returns (rows: nat, complete: bool, ghost phones: set<nat>)
      requires batch >= 1
      modifies this
      ensures phones <= PhonesDue(old(db), cutoff) && db == Erase(old(db), {}, phones, {}, now)
      ensures rows == |phones|
      ensures complete ==> phones == PhonesDue(old(db), cutoff)
      ensures Spent(old(left), left, complete, |phones|)
    {
      hide Erase, PhonesDue;
      ghost var start := db;
      ghost var due := PhonesDue(db, cutoff);
      rows, complete, phones := 0, true, {};
      EraseNothing(db, now);
      while true
        invariant phones <= due && db == Erase(start, {}, phones, {}, now)
        invariant rows == |phones|
        invariant Running(old(left), left, |phones|)
        decreases due - phones
      {
        var out := OutOfTime();
        if out {
          complete := false;
          break;
        }
        ErasedIsNotDue(start, cutoff, {}, phones, {}, now);
        var ids := Ids(PhonesDue(db, cutoff), batch);
        if ids == {} {
          AllOf(phones, due);
          break;
        }
        rows := rows + |ids|;
        db := Erase(db, {}, ids, {}, now);
        MorePhones(start, phones, ids, now);
        phones := phones + ids;
      }
    }

    /** The third loop. */
    method EraseGeocodes(cutoff: int, now: Time, batch: nat)
      returns (rows: nat, complete: bool, ghost geos: set<nat>)
      requires batch >= 1
      modifies this
      ensures geos <= GeocodesDue(old(db), cutoff) && db == Erase(old(db), {}, {}, geos, now)
      ensures rows == |geos|
      ensures complete ==> geos == GeocodesDue(old(db), cutoff)
      ensures Spent(old(left), left, complete, |geos|)
    {
      hide Erase, GeocodesDue;
      ghost var start := db;
      ghost var due := GeocodesDue(db, cutoff);
      rows, complete, geos := 0, true, {};
      EraseNothing(db, now);
      while true
        invariant geos <= due && db == Erase(start, {}, {}, geos, now)
        invariant rows == |geos|
        invariant Running(old(left), left, |geos|)
        decreases due - geos
      {
        var out := OutOfTime();
        if out {
          complete := false;
          break;
        }
        ErasedIsNotDue(start, cutoff, {}, {}, geos, now);
        var ids := Ids(GeocodesDue(db, cutoff), batch);
        if ids == {} {
          AllOf(geos, due);
          break;
        }
        rows := rows + |ids|;
        db := Erase(db, {}, {}, ids, now);
        MoreGeocodes(start, geos, ids, now);
        geos := geos + ids;
      }
    }

    /**
     `purge_recipient_pii`; a batch size of 0 stands for none given. A dry run counts what a full run would
     erase. A full run does the declarative erasure, whatever the batch size; one cut short does part of it,
     and at least as much as it looked at the clock, bar two looks.
     */
    method Purge(apply: bool, now: Time, days: nat, batchSize: nat, defaultBatch: nat)
      returns (result: PurgeResult, ghost part: Part)
      requires ValidSettings(days, defaultBatch)
      modifies this
      ensures result.staleActive == |StaleActive(old(db), Cutoff(now, days))|
      ensures !apply ==> db == old(db) && result.complete && result.counts == CountAll(old(db), Cutoff(now, days))
      ensures apply ==>
                && part.now == now && part.cutoff == Cutoff(now, days)
                && SomeDue(old(db), part.cutoff, part.ds, part.phones, part.geos)
                && db == ErasePart(old(db), part)
                && result.counts == CountsOf(old(db), part.ds, part.phones, part.geos)
      ensures apply && old(left).None? ==> result.complete
      ensures apply && result.complete ==>
                && db == EraseAll(old(db), Cutoff(now, days), now)
                && result.counts == CountAll(old(db), Cutoff(now, days)) && NothingDue(db, Cutoff(now, days))
      ensures apply && result.complete ==> IsPurged(old(db), db, days, now)
      ensures apply ==>
                && IsPartlyPurged(old(db), db, days, now)
                && result.counts.deliveries == |set d | d in old(db).deliveries && db.deliveries[d] != old(db).deliveries[d]|
                && result.counts.tokens == |old(db).tokens - db.tokens|
                && result.counts.phones == |set i | 0 <= i < |old(db).sends| && db.sends[i] != old(db).sends[i]|
                && result.counts.geocodes == |set g | g in old(db).geocodes && g !in db.geocodes|
      ensures apply && !result.complete ==>
                old(left).Some? && old(left).value <= |part.ds| + |part.phones| + |part.geos| + 2
    {
      hide Erase, DeliveriesDue, PhonesDue, GeocodesDue, IsPurged, IsPartlyPurged;
      var cutoff := Cutoff(now, days);
      var batch := if batchSize == 0 then defaultBatch else batchSize;
      var stale := |StaleActive(db, cutoff)|;
      part := Part(cutoff, now, {}, {}, {});
      if !apply {
        return PurgeResult(CountAll(db, cutoff), stale, true), part;
      }
      ghost var start := db;
      var rows, tokens, first, ds := EraseDeliveries(cutoff, now, batch);
      ErasedIsNotDue(start, cutoff, ds, {}, {}, now);
      var phoneRows, second, phones := ErasePhones(cutoff, now, batch);
      ThreeLoops(start, ds, phones, {}, now);
      ErasedIsNotDue(start, cutoff, ds, phones, {}, now);
      var geoRows, third, geos := EraseGeocodes(cutoff, now, batch);
      ThreeLoops(start, ds, phones, geos, now);
      ErasedIsNotDue(start, cutoff, ds, phones, geos, now);
      part := Part(cutoff, now, ds, phones, geos);
      EraseSomeMeans(start, days, now, ds, phones, geos);
      TokensGone(start, ds, phones, geos, now);
      EraseAllMeans(start, days, now);
      result := PurgeResult(Counts(rows, tokens, phoneRows, geoRows), stale, first && second && third);
    }
  }

  /** A run that has time left looked at the clock no more often than it erased rows. */
  predicate Running(before: Option<nat>, left: Option<nat>, erased: nat) {
    (before.None? <==> left.None?) && (before.Some? ==> before.value <= left.value + erased)
  }

  /** A loop that stopped for time erased a row for every look at the clock; one that finished took one look more. */
  predicate Spent(before: Option<nat>, left: Option<nat>, complete: bool, erased: nat) {
    && (before.None? <==> left.None?)
    && (complete && before.Some? ==> before.value <= left.value + erased + 1)
    && (!complete ==> left == Some(0) && before.value <= erased)
  }

  lemma MoreDeliveries(db: Db, ds: set<DeliveryId>, more: set<DeliveryId>, now: Time)
    requires ds !! more
    ensures var db' := Erase(db, ds, {}, {}, now);
            && Erase(db', more, {}, {}, now) == Erase(db, ds + more, {}, {}, now)
            && |db.tokens * ds| + |db'.tokens * more| == |db.tokens * (ds + more)|
            && |ds + more| == |ds| + |more|
  {
    EraseMore(db, ds, {}, {}, more, {}, {}, now);
    DisjointCounts(db, Part(0, now, ds, {}, {}), more, {}, {});
  }

  lemma TokensGone(db: Db, ds: set<DeliveryId>, phones: set<nat>, geos: set<nat>, now: Time)
    ensures db.tokens - Erase(db, ds, phones, geos, now).tokens == db.tokens * ds
  {
  }

  lemma MorePhones(db: Db, phones: set<nat>, more: set<nat>, now: Time)
    requires phones !! more
    ensures Erase(Erase(db, {}, phones, {}, now), {}, more, {}, now) == Erase(db, {}, phones + more, {}, now)
    ensures |phones + more| == |phones| + |more|
  {
  }

  lemma MoreGeocodes(db: Db, geos: set<nat>, more: set<nat>, now: Time)
    requires geos !! more
    ensures Erase(Erase(db, {}, {}, geos, now), {}, {}, more, now) == Erase(db, {}, {}, geos + more, now)
    ensures |geos + more| == |geos| + |more|
  {
  }

  lemma ThreeLoops(db: Db, ds: set<DeliveryId>, phones: set<nat>, geos: set<nat>, now: Time)
    ensures Erase(Erase(db, ds, {}, {}, now), {}, phones, {}, now) == Erase(db, ds, phones, {}, now)
    ensures Erase(Erase(db, ds, phones, {}, now), {}, {}, geos, now) == Erase(db, ds, phones, geos, now)
  {
  }
}
