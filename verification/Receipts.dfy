/**
 notifications/webhooks.py: delivery and seen reports move a notification's status. Reports come late,
 twice and in any order; the status they leave behind, and what the merchant is told, must not care.
 */
module Receipts {
  import opened Prelude

  datatype Status = Queued | Sent | Delivered | Read | Failed

  /** One entry of a report request; `mid` is empty when the entry has no message id. */
  datatype Report = Report(mid: string, seen: bool, group: Option<string>)

  /** A notification row, as far as reports are concerned. */
  datatype Notification = Notification(mid: string, status: Status)

  /** A status change the merchant is told about; `row` is the notification's place in the table. */
  datatype Event = Event(row: nat, status: Status)

  // ---- one report, one notification ---------------------------------------------------------------

  /** `_resolve_status` */
  function Resolve(r: Report): (s: Option<Status>)
    ensures s.Some? ==> s.value == Delivered || s.value == Read || s.value == Failed
  {
    if r.seen then Some(Read)
    else if r.group == Some("DELIVERED") then Some(Delivered)
    else if r.group == Some("UNDELIVERABLE") || r.group == Some("REJECTED") || r.group == Some("EXPIRED")
    then Some(Failed)
    else None
  }

  /** The place of a status in `_ORDER`; a failed notification has none and counts as queued. */
  function Place(s: Status): nat {
    match s
    case Queued | Failed => 0
    case Sent => 1
    case Delivered => 2
    case Read => 3
  }

  /** `_apply`: the status after being offered `reported`. */
  function Apply(current: Status, reported: Status): Status {
    if reported == Failed then (if current == Queued || current == Sent then Failed else current)
    else if Place(reported) > Place(current) then reported else current
  }

  function Rank(s: Status): nat {
    match s
    case Queued | Sent => 0
    case Failed => 1
    case Delivered => 2
    case Read => 3
  }

  function Offer(current: Status, r: Report): Status {
    if Resolve(r).Some? then Apply(current, Resolve(r).value) else current
  }

  /** The code's two branches and its missing place for "failed" are one join. */
  lemma OfferIsJoin(current: Status, r: Report)
    ensures Offer(current, r)
         == if Resolve(r).Some? && Rank(Resolve(r).value) > Rank(current) then Resolve(r).value else current
  {
  }

  // ---- many reports, one notification ----------------------------------------------------------------

  predicate Reports(r: Report, mid: string, s: Status) {
    r.mid == mid && Resolve(r) == Some(s)
  }

  /** The status of a notification with message id `mid` after these reports. */
  function Final(current: Status, mid: string, reports: seq<Report>): Status {
    if reports == [] then current
    else
      var s, r := Final(current, mid, reports[..|reports| - 1]), reports[|reports| - 1];
      if r.mid == mid then Offer(s, r) else s
  }

  /** It is the highest of the status before and the reported ones. */
  lemma {:induction false} FinalIsHighest(current: Status, mid: string, reports: seq<Report>)
    ensures var f := Final(current, mid, reports);
            && (f == current || Rank(f) > Rank(current))
            && (forall r, s :: r in reports && Reports(r, mid, s) ==> Rank(s) <= Rank(f))
            && (f == current || exists r :: r in reports && Reports(r, mid, f))
  {
    if reports != [] {
      var front, last := reports[..|reports| - 1], reports[|reports| - 1];
      FinalIsHighest(current, mid, front);
      OfferIsJoin(Final(current, mid, front), last);
      assert reports == front + [last];
      var f := Final(current, mid, reports);
      if f != current {
        if f == Final(current, mid, front) {
          var r :| r in front && Reports(r, mid, f);
          assert r in reports;
        } else {
          assert Reports(last, mid, f);
        }
      }
    }
  }

  /** So the same reports in another order, or repeated, leave the same status. */
  lemma FinalIgnoresOrder(current: Status, mid: string, a: seq<Report>, b: seq<Report>)
    requires forall r :: r in a <==> r in b
    ensures Final(current, mid, a) == Final(current, mid, b)
  {
    var f, g := Final(current, mid, a), Final(current, mid, b);
    FinalIsHighest(current, mid, a);
    FinalIsHighest(current, mid, b);
    hide Final;
    if f != current {
      var r :| r in a && Reports(r, mid, f);
      assert Rank(f) <= Rank(g);
    }
    if g != current {
      var r :| r in b && Reports(r, mid, g);
      assert Rank(g) <= Rank(f);
    }
  }

  predicate SaysSeen(r: Report, mid: string) {
    r.mid == mid && r.seen
  }

  predicate SaysDelivered(r: Report, mid: string) {
    r.mid == mid && !r.seen && r.group == Some("DELIVERED")
  }

  predicate SaysFailed(r: Report, mid: string) {
    r.mid == mid && !r.seen
    && (r.group == Some("UNDELIVERABLE") || r.group == Some("REJECTED") || r.group == Some("EXPIRED"))
  }

  lemma ResolveMeans(r: Report)
    ensures Resolve(r) == Some(Read) <==> SaysSeen(r, r.mid)
    ensures Resolve(r) == Some(Delivered) <==> SaysDelivered(r, r.mid)
    ensures Resolve(r) == Some(Failed) <==> SaysFailed(r, r.mid)
    ensures Resolve(r) == None <==> !SaysSeen(r, r.mid) && !SaysDelivered(r, r.mid) && !SaysFailed(r, r.mid)
  {
    assert |"DELIVERED"| == 9 && |"UNDELIVERABLE"| == 13 && |"REJECTED"| == 8 && |"EXPIRED"| == 7;
  }

  /**
   In the words of the reports: read once any of them says seen; else delivered once one says so; else failed once one
   says undeliverable, rejected or expired; else what it was. Nothing is taken back.
   */
  lemma FinalMeans(current: Status, mid: string, reports: seq<Report>)
    ensures Final(current, mid, reports)
         == if current == Read || exists r :: r in reports && SaysSeen(r, mid) then Read
            else if current == Delivered || exists r :: r in reports && SaysDelivered(r, mid) then Delivered
            else if current == Failed || exists r :: r in reports && SaysFailed(r, mid) then Failed
            else current
  {
    FinalIsHighest(current, mid, reports);
    hide Final, Resolve;
    var f := Final(current, mid, reports);
    forall r | r in reports
      ensures SaysSeen(r, mid) <==> Reports(r, mid, Read)
      ensures SaysDelivered(r, mid) <==> Reports(r, mid, Delivered)
      ensures SaysFailed(r, mid) <==> Reports(r, mid, Failed)
      ensures !Reports(r, mid, Queued) && !Reports(r, mid, Sent)
    {
      ResolveMeans(r);
    }
    hide SaysSeen, SaysDelivered, SaysFailed, Reports;
  }

  // ---- the table ------------------------------------------------------------------------------------------

  /** The row a message id finds: the first one, rows being read newest first. */
  predicate Finds(table: seq<Notification>, mid: string, row: nat) {
    row < |table| && mid != "" && table[row].mid == mid && forall i :: 0 <= i < row ==> table[i].mid != mid
  }

  function Find(table: seq<Notification>, mid: string): (row: Option<nat>)
    ensures row.Some? ==> Finds(table, mid, row.value)
    ensures row.None? ==> mid == "" || forall i :: 0 <= i < |table| ==> table[i].mid != mid
  {
    FindFrom(table, mid, 0)
  }

  function FindFrom(table: seq<Notification>, mid: string, from: nat): (row: Option<nat>)
    requires from <= |table| && forall i :: 0 <= i < from ==> table[i].mid != mid || mid == ""
    ensures row.Some? ==> Finds(table, mid, row.value)
    ensures row.None? ==> mid == "" || forall i :: 0 <= i < |table| ==> table[i].mid != mid
    decreases |table| - from
  {
    if mid == "" || from == |table| then None
    else if table[from].mid == mid then Some(from)
    else FindFrom(table, mid, from + 1)
  }

  function Receive(table: seq<Notification>, r: Report): seq<Notification> {
    var row := Find(table, r.mid);
    if row.None? then table
    else table[row.value := table[row.value].(status := Offer(table[row.value].status, r))]
  }

  function Told(table: seq<Notification>, r: Report): seq<Event> {
    var row := Find(table, r.mid);
    if row.None? || Offer(table[row.value].status, r) == table[row.value].status then []
    else [Event(row.value, Offer(table[row.value].status, r))]
  }

  function ReceiveAll(table: seq<Notification>, reports: seq<Report>): seq<Notification> {
    if reports == [] then table
    else Receive(ReceiveAll(table, reports[..|reports| - 1]), reports[|reports| - 1])
  }

  function ToldAll(table: seq<Notification>, reports: seq<Report>): seq<Event> {
    if reports == [] then []
    else
      var front := reports[..|reports| - 1];
      ToldAll(table, front) + Told(ReceiveAll(table, front), reports[|reports| - 1])
  }

  ghost predicate SameMids(a: seq<Notification>, b: seq<Notification>) {
    |a| == |b| && forall i :: 0 <= i < |a| ==> a[i].mid == b[i].mid
  }

  lemma FindsSame(a: seq<Notification>, b: seq<Notification>, mid: string)
    requires SameMids(a, b)
    ensures Find(a, mid) == Find(b, mid)
  {
  }

  /** The status row `i` should have after these reports, whatever they say of other rows. */
  ghost function StatusAfter(table: seq<Notification>, reports: seq<Report>, i: nat): Status
    requires i < |table|
  {
    if Finds(table, table[i].mid, i) then Final(table[i].status, table[i].mid, reports) else table[i].status
  }

  /** Each row ends with the status its own reports give it; a row its message id does not find stays. */
  lemma {:induction false} RowsAreIndependent(table: seq<Notification>, reports: seq<Report>)
    ensures SameMids(table, ReceiveAll(table, reports))
    ensures forall i :: 0 <= i < |table| ==> StatusAfter(table, reports, i) == ReceiveAll(table, reports)[i].status
  {
    hide Offer;
    if reports != [] {
      var front, last := reports[..|reports| - 1], reports[|reports| - 1];
      RowsAreIndependent(table, front);
      FindsSame(table, ReceiveAll(table, front), last.mid);
    }
  }

  /** The same set of reports leaves the same table. */
  lemma TableIgnoresOrder(table: seq<Notification>, a: seq<Report>, b: seq<Report>)
    requires forall r :: r in a <==> r in b
    ensures ReceiveAll(table, a) == ReceiveAll(table, b)
  {
    RowsAreIndependent(table, a);
    RowsAreIndependent(table, b);
    forall i | 0 <= i < |table| ensures ReceiveAll(table, a)[i] == ReceiveAll(table, b)[i] {
      FinalIgnoresOrder(table[i].status, table[i].mid, a, b);
      assert StatusAfter(table, a, i) == StatusAfter(table, b, i);
    }
  }

  /** What a merchant hears about one notification only ever goes up, and ends at its status. */
  ghost predicate ToldUpTo(told: seq<Event>, before: seq<Notification>, after: seq<Notification>) {
    && |before| == |after|
    && (forall j :: 0 <= j < |told| ==>
         && told[j].row < |after|
         && Rank(before[told[j].row].status) < Rank(told[j].status) <= Rank(after[told[j].row].status))
    && (forall j, k :: 0 <= j < k < |told| && told[j].row == told[k].row ==> Rank(told[j].status) < Rank(told[k].status))
    && forall i :: 0 <= i < |after| && after[i] != before[i] ==> Event(i, after[i].status) in told
  }

  lemma {:induction false} ToldStrictlyIncreasing(table: seq<Notification>, reports: seq<Report>)
    ensures ToldUpTo(ToldAll(table, reports), table, ReceiveAll(table, reports))
  {
    if reports != [] {
      var front, last := reports[..|reports| - 1], reports[|reports| - 1];
      ToldStrictlyIncreasing(table, front);
      ToldOneMore(table, ReceiveAll(table, front), ToldAll(table, front), last);
    }
  }

  lemma ToldOneMore(before: seq<Notification>, now: seq<Notification>, told: seq<Event>, r: Report)
    requires ToldUpTo(told, before, now)
    requires forall i :: 0 <= i < |now| ==> Rank(before[i].status) <= Rank(now[i].status)
    ensures ToldUpTo(told + Told(now, r), before, Receive(now, r))
  {
    var row := Find(now, r.mid);
    if row.Some? {
      OfferIsJoin(now[row.value].status, r);
    }
    hide Offer, Find, Finds;
  }

  // ---- the request handler ----------------------------------------------------------------------------------

  class Notifications {
    var table: seq<Notification>
    var told: seq<Event>

    constructor (rows: seq<Notification>)
      ensures table == rows && told == []
    {
      table, told := rows, [];
    }

    /** `_apply` on the row: saved only when it changes. */
    method ApplyTo(row: nat, reported: Status) returns (changed: bool)
      requires row < |table|
      modifies this`table
      ensures table == old(table)[row := old(table)[row].(status := Apply(old(table)[row].status, reported))]
      ensures changed <==> table[row].status != old(table)[row].status
    {
      var current := table[row].status;
      if reported == Failed {
        if current == Queued || current == Sent {
          table := table[row := table[row].(status := Failed)];
          return true;
        }
        return false;
      }
      if Place(reported) > Place(current) {
        table := table[row := table[row].(status := reported)];
        return true;
      }
      return false;
    }

    /** `infobip_reports`, past the shared secret and the JSON. */
    method InfobipReports(results: seq<Report>)
      modifies this
      ensures table == ReceiveAll(old(table), results)
      ensures told == old(told) + ToldAll(old(table), results)
    {
      var i := 0;
      while i < |results|
        invariant 0 <= i <= |results|
        invariant table == ReceiveAll(old(table), results[..i])
        invariant told == old(told) + ToldAll(old(table), results[..i])
      {
        var r := results[i];
        assert results[..i + 1][..i] == results[..i];
        ghost var before := table;
        i := i + 1;
        if r.mid == "" {
          continue;
        }
        var row := Find(table, r.mid);
        if row.None? {
          continue;
        }
        var reported := Resolve(r);
        if reported.Some? {
          var changed := ApplyTo(row.value, reported.value);
          if changed {
            told := told + [Event(row.value, table[row.value].status)];
          }
        }
        assert table == Receive(before, r);
      }
      assert results[..|results|] == results;
    }
  }
}
