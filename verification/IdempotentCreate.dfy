/**
 deliveries/api.py, creating a delivery with an Idempotency-Key: look the key up, create the row,
 insert the key, and when another request was first, delete the own row again. Nothing here is under a
 lock; each action is one database statement of one request.
 */
module IdempotentCreate {
  import Deliveries
  import opened Prelude

  type ShopId = Deliveries.ShopId
  type DeliveryId = Deliveries.DeliveryId

  /** Who asked for a row: shop, Idempotency-Key (None: header empty) and request number. */
  datatype Row = Row(shop: ShopId, key: Option<string>, maker: nat)

  datatype Stage =
    | Begun
    | Missed
    | Created(own: DeliveryId)
    | Conflicted(own: DeliveryId)
    | Losing(own: DeliveryId, winner: DeliveryId)
    | Responded(id: DeliveryId)
    | Crashed(left: Option<DeliveryId>)  // the own row, if there was one

  datatype Request = Request(shop: ShopId, key: Option<string>, stage: Stage)

  datatype Db = Db(rows: map<DeliveryId, Row>, keys: map<(ShopId, string), DeliveryId>, next: DeliveryId)

  datatype State = State(db: Db, requests: seq<Request>)

  datatype Action =
    | Arrive(shop: ShopId, key: Option<string>)
    | Lookup(r: nat)
    | Create(r: nat)
    | InsertKey(r: nat)
    | Reread(r: nat)
    | DeleteOwn(r: nat)
    | Crash(r: nat)

  // ---- the statements ----------------------------------------------------------------------

  function CreateRow(db: Db, row: Row): Db {
    db.(rows := db.rows[db.next := row], next := db.next + 1)
  }

  /** Deleting a delivery takes the key rows that point to it along. */
  function DeleteRow(db: Db, d: DeliveryId): Db {
    db.(rows := db.rows - {d}, keys := map k | k in db.keys && db.keys[k] != d :: db.keys[k])
  }

  function OwnRow(stage: Stage): Option<DeliveryId> {
    if stage.Created? || stage.Conflicted? || stage.Losing? then Some(stage.own) else None
  }

  predicate Enabled(s: State, a: Action) {
    match a
    case Arrive(_, _) => true
    case Crash(r) => r < |s.requests| && !s.requests[r].stage.Responded? && !s.requests[r].stage.Crashed?
    case _ =>
      && a.r < |s.requests|
      && var stage := s.requests[a.r].stage;
      match a
      case Lookup(_) => stage.Begun?
      case Create(_) => stage.Missed?
      case InsertKey(_) => stage.Created?
      case Reread(_) => stage.Conflicted?
      case DeleteOwn(_) => stage.Losing?
      case _ => false
  }

  function LookupStage(db: Db, q: Request): Stage {
    if q.key.Some? && (q.shop, q.key.value) in db.keys then Responded(db.keys[(q.shop, q.key.value)])
    else Missed
  }

  function Do(s: State, a: Action): State
    requires Enabled(s, a)
  {
    match a
    case Arrive(shop, key) => s.(requests := s.requests + [Request(shop, key, Begun)])
    case Lookup(r) => At(s, r, LookupStage(s.db, s.requests[r]), s.db)
    case Create(r) =>
      var q := s.requests[r];
      At(s, r, Created(s.db.next), CreateRow(s.db, Row(q.shop, q.key, r)))
    case InsertKey(r) =>
      var q := s.requests[r];
      var d := q.stage.own;
      if q.key.None? then At(s, r, Responded(d), s.db)
      else if (q.shop, q.key.value) in s.db.keys then At(s, r, Conflicted(d), s.db)
      else At(s, r, Responded(d), s.db.(keys := s.db.keys[(q.shop, q.key.value) := d]))
    case Reread(r) =>
      var q := s.requests[r];
      if q.key.Some? && (q.shop, q.key.value) in s.db.keys
      then At(s, r, Losing(q.stage.own, s.db.keys[(q.shop, q.key.value)]), s.db)
      else At(s, r, Responded(q.stage.own), s.db)
    case DeleteOwn(r) =>
      var q := s.requests[r];
      At(s, r, Responded(q.stage.winner), DeleteRow(s.db, q.stage.own))
    case Crash(r) => At(s, r, Crashed(OwnRow(s.requests[r].stage)), s.db)
  }

  function At(s: State, r: nat, stage: Stage, db: Db): State
    requires r < |s.requests|
  {
    State(db, s.requests[r := s.requests[r].(stage := stage)])
  }

  const EMPTY := State(Db(map[], map[], 0), [])

  function Run(actions: seq<Action>): State {
    if actions == [] then EMPTY
    else
      var s := Run(actions[..|actions| - 1]);
      var a := actions[|actions| - 1];
      if Enabled(s, a) then Do(s, a) else s
  }

  // ---- what every interleaving keeps --------------------------------------------------------

  /** The request made `d` and still has it for its own, or died with it. */
  predicate HoldsRow(q: Request, d: DeliveryId) {
    OwnRow(q.stage) == Some(d) || q.stage == Crashed(Some(d))
  }

  /** Keys point to rows made for them. */
  predicate KeysPoint(db: Db) {
    && (forall d :: d in db.rows ==> d < db.next)
    && forall k :: k in db.keys ==>
      db.keys[k] in db.rows && db.rows[db.keys[k]].shop == k.0 && db.rows[db.keys[k]].key == Some(k.1)
  }

  ghost predicate RequestOk(db: Db, q: Request, r: nat) {
    && (forall d :: HoldsRow(q, d) ==>
         d in db.rows && db.rows[d] == Row(q.shop, q.key, r) && forall k :: k in db.keys ==> db.keys[k] != d)
    && (q.stage.Conflicted? ==> q.key.Some? && (q.shop, q.key.value) in db.keys)
    && (q.stage.Losing? ==> q.key.Some? && (q.shop, q.key.value) in db.keys && db.keys[(q.shop, q.key.value)] == q.stage.winner)
    && (q.stage.Responded? && q.key.Some? ==>
         (q.shop, q.key.value) in db.keys && db.keys[(q.shop, q.key.value)] == q.stage.id)
    && (q.stage.Responded? && q.key.None? ==>
         q.stage.id in db.rows && db.rows[q.stage.id] == Row(q.shop, None, r))
  }

  /** A row belongs to its key, or to the answered, running or crashed request that made it. */
  predicate RowAccounted(s: State, d: DeliveryId)
    requires d in s.db.rows
  {
    var row := s.db.rows[d];
    || (row.key.Some? && (row.shop, row.key.value) in s.db.keys && s.db.keys[(row.shop, row.key.value)] == d)
    || (row.maker < |s.requests| && HoldsRow(s.requests[row.maker], d))
    || (row.key.None? && row.maker < |s.requests| && s.requests[row.maker].stage == Responded(d))
  }

  ghost predicate Inv(s: State) {
    && KeysPoint(s.db)
    && (forall r :: 0 <= r < |s.requests| ==> RequestOk(s.db, s.requests[r], r))
    && forall d :: d in s.db.rows ==> RowAccounted(s, d)
  }

  lemma DeleteOwnKeepsInv(s: State, r: nat)
    requires Inv(s) && Enabled(s, DeleteOwn(r))
    ensures Inv(Do(s, DeleteOwn(r)))
  {
    var s' := Do(s, DeleteOwn(r));
    assert s'.db.keys == s.db.keys;
    forall i | 0 <= i < |s'.requests| ensures RequestOk(s'.db, s'.requests[i], i) {
      assert RequestOk(s.db, s.requests[i], i);
    }
    forall d | d in s'.db.rows ensures RowAccounted(s', d) {
      assert RowAccounted(s, d);
    }
  }

  lemma CreateKeepsInv(s: State, r: nat)
    requires Inv(s) && Enabled(s, Create(r))
    ensures Inv(Do(s, Create(r)))
  {
    var s' := Do(s, Create(r));
    forall i | 0 <= i < |s'.requests| ensures RequestOk(s'.db, s'.requests[i], i) {
      assert RequestOk(s.db, s.requests[i], i);
    }
    forall d | d in s'.db.rows ensures RowAccounted(s', d) {
      assert d in s.db.rows ==> RowAccounted(s, d);
    }
  }

  lemma InsertKeepsInv(s: State, r: nat)
    requires Inv(s) && Enabled(s, InsertKey(r))
    ensures Inv(Do(s, InsertKey(r)))
  {
    var s' := Do(s, InsertKey(r));
    assert RequestOk(s.db, s.requests[r], r);
    forall i | 0 <= i < |s'.requests| ensures RequestOk(s'.db, s'.requests[i], i) {
      assert RequestOk(s.db, s.requests[i], i);
    }
    forall d | d in s'.db.rows ensures RowAccounted(s', d) {
      assert RowAccounted(s, d);
    }
  }

  lemma OtherKeepsInv(s: State, a: Action)
    requires Inv(s) && Enabled(s, a) && (a.Arrive? || a.Lookup? || a.Reread? || a.Crash?)
    ensures Inv(Do(s, a))
  {
    var s' := Do(s, a);
    forall i | 0 <= i < |s'.requests| ensures RequestOk(s'.db, s'.requests[i], i) {
      assert i < |s.requests| ==> RequestOk(s.db, s.requests[i], i);
    }
    forall d | d in s'.db.rows ensures RowAccounted(s', d) {
      assert RowAccounted(s, d);
    }
  }

  lemma StepKeepsInv(s: State, a: Action)
    requires Inv(s) && Enabled(s, a)
    ensures Inv(Do(s, a))
  {
    hide Inv, Do, Enabled;
    if a.Create? {
      CreateKeepsInv(s, a.r);
    } else if a.InsertKey? {
      InsertKeepsInv(s, a.r);
    } else if a.DeleteOwn? {
      DeleteOwnKeepsInv(s, a.r);
    } else {
      OtherKeepsInv(s, a);
    }
  }

  /** Every interleaving, crashes included. */
  lemma {:induction false} RunKeepsInv(actions: seq<Action>)
    ensures Inv(Run(actions))
  {
    hide Do, Enabled;
    if actions != [] {
      var front := actions[..|actions| - 1];
      RunKeepsInv(front);
      if Enabled(Run(front), actions[|actions| - 1]) {
        StepKeepsInv(Run(front), actions[|actions| - 1]);
      }
    }
  }

  /** At no moment of any run does a key row point to a delivery that is gone, or to one made for another key. */
  lemma KeysNeverDangle(actions: seq<Action>, shop: ShopId, key: string)
    ensures var db := Run(actions).db;
            (shop, key) in db.keys ==>
              var d := db.keys[(shop, key)]; d in db.rows && db.rows[d].shop == shop && db.rows[d].key == Some(key)
  {
    RunKeepsInv(actions);
  }

  /** All answers a key ever gets, in any run, carry the delivery the key points to. */
  lemma AnswersAgree(actions: seq<Action>, r: nat)
    requires r < |Run(actions).requests| && Run(actions).requests[r].key.Some?
    ensures var s, q := Run(actions), Run(actions).requests[r];
            q.stage.Responded? ==>
              (q.shop, q.key.value) in s.db.keys && s.db.keys[(q.shop, q.key.value)] == q.stage.id
  {
    RunKeepsInv(actions);
    assert RequestOk(Run(actions).db, Run(actions).requests[r], r);
  }

  predicate IsFor(q: Request, shop: ShopId, key: string) {
    q.shop == shop && q.key == Some(key)
  }

  /** No request for this key is still running. */
  predicate Settled(s: State, shop: ShopId, key: string) {
    forall r :: 0 <= r < |s.requests| && IsFor(s.requests[r], shop, key) ==>
      s.requests[r].stage.Responded? || s.requests[r].stage.Crashed?
  }

  function RowsOf(db: Db, shop: ShopId, key: string): set<DeliveryId> {
    set d | d in db.rows && db.rows[d].shop == shop && db.rows[d].key == Some(key)
  }

  /** The requests for this key that crashed after creating their row and before giving it a key or deleting it. */
  function CrashedWithRow(s: State, shop: ShopId, key: string): set<nat> {
    set r | 0 <= r < |s.requests| && IsFor(s.requests[r], shop, key)
            && s.requests[r].stage.Crashed? && s.requests[r].stage.left.Some?
  }

  lemma RowsAreAnswerAndLeftovers(s: State, r: nat)
    requires Inv(s) && r < |s.requests| && s.requests[r].key.Some? && s.requests[r].stage.Responded?
    requires Settled(s, s.requests[r].shop, s.requests[r].key.value)
    ensures var q := s.requests[r];
            && RowsOf(s.db, q.shop, q.key.value) == {q.stage.id} + Leftovers(s, q.shop, q.key.value)
            && q.stage.id !in Leftovers(s, q.shop, q.key.value)
  {
    var q := s.requests[r];
    var crashed := CrashedWithRow(s, q.shop, q.key.value);
    assert RequestOk(s.db, q, r);
    forall d | d in RowsOf(s.db, q.shop, q.key.value) && d != q.stage.id
      ensures exists o :: o in crashed && s.requests[o].stage.left.value == d
    {
      assert RowAccounted(s, d);
      var o := s.db.rows[d].maker;
      assert RequestOk(s.db, s.requests[o], o) && HoldsRow(s.requests[o], d);
      assert o in crashed;
    }
    forall o | o in crashed
      ensures s.requests[o].stage.left.value in RowsOf(s.db, q.shop, q.key.value)
      ensures s.requests[o].stage.left.value != q.stage.id
    {
      assert RequestOk(s.db, s.requests[o], o) && HoldsRow(s.requests[o], s.requests[o].stage.left.value);
    }
  }

  function Leftovers(s: State, shop: ShopId, key: string): set<DeliveryId> {
    set r | r in CrashedWithRow(s, shop, key) :: s.requests[r].stage.left.value
  }

  /** Every one of them left a row of its own. */
  lemma LeftoversAreDistinct(s: State, shop: ShopId, key: string)
    requires Inv(s)
    ensures |Leftovers(s, shop, key)| == |CrashedWithRow(s, shop, key)|
  {
    var left := map r | r in CrashedWithRow(s, shop, key) :: s.requests[r].stage.left.value;
    forall r | r in left ensures left[r] in s.db.rows && s.db.rows[left[r]].maker == r {
      assert RequestOk(s.db, s.requests[r], r) && HoldsRow(s.requests[r], left[r]);
    }
    InjectionFits(left, Leftovers(s, shop, key));
    var maker := map d | d in Leftovers(s, shop, key) :: s.db.rows[d].maker;
    InjectionFits(maker, CrashedWithRow(s, shop, key));
    assert left.Keys == CrashedWithRow(s, shop, key) && maker.Keys == Leftovers(s, shop, key);
  }

  /**
   Once no request for an answered key runs, the key owns the delivery every answer carried, and one more for
   each request for it that crashed with its row in the table. So it owns exactly one if and only if there
   was none; what happens to other keys, other shops and requests without a row makes no difference.
   */
  lemma OneDeliveryPerKey(actions: seq<Action>, r: nat)
    requires r < |Run(actions).requests| && Run(actions).requests[r].key.Some?
    requires Run(actions).requests[r].stage.Responded?
    requires Settled(Run(actions), Run(actions).requests[r].shop, Run(actions).requests[r].key.value)
    ensures var s, q := Run(actions), Run(actions).requests[r];
            var rows, crashed := RowsOf(s.db, q.shop, q.key.value), CrashedWithRow(s, q.shop, q.key.value);
            && q.stage.id in rows && |rows| == 1 + |crashed|
            && (rows == {q.stage.id} <==> crashed == {})
  {
    RunKeepsInv(actions);
    var s, q := Run(actions), Run(actions).requests[r];
    hide Run, Inv, RowsOf, CrashedWithRow, Leftovers;
    RowsAreAnswerAndLeftovers(s, r);
    LeftoversAreDistinct(s, q.shop, q.key.value);
    var left := Leftovers(s, q.shop, q.key.value);
    if left == {} {
      assert {q.stage.id} + left == {q.stage.id};
    } else {
      var d :| d in left;
      assert d in {q.stage.id} + left;
    }
  }

  /** A request without a key owns a delivery of its own. */
  lemma OwnDeliveryWithoutKey(actions: seq<Action>, r: nat, other: nat)
    requires r < |Run(actions).requests| && Run(actions).requests[r].key.None?
    requires Run(actions).requests[r].stage.Responded?
    ensures var s := Run(actions);
            && s.requests[r].stage.id in s.db.rows
            && (other < |s.requests| && other != r ==> s.requests[other].stage != s.requests[r].stage)
  {
    RunKeepsInv(actions);
    var s := Run(actions);
    assert RequestOk(s.db, s.requests[r], r);
    if other < |s.requests| {
      assert RequestOk(s.db, s.requests[other], other);
    }
  }

  lemma RunSnoc(a: seq<Action>, b: Action)
    ensures Run(a + [b]) == if Enabled(Run(a), b) then Do(Run(a), b) else Run(a)
  {
  }

  /** One undisturbed request, up to the insert of its row. */
  lemma RunToCreated(a: seq<Action>, key: string) returns (b: seq<Action>)
    requires (1, key) !in Run(a).db.keys
    ensures var s, r := Run(a), |Run(a).requests|;
            var row := Row(1, Some(key), r);
            Run(b) == State(CreateRow(s.db, row), s.requests + [Request(1, Some(key), Created(s.db.next))])
  {
    var s, r := Run(a), |Run(a).requests|;
    RunSnoc(a, Arrive(1, Some(key)));
    RunSnoc(a + [Arrive(1, Some(key))], Lookup(r));
    RunSnoc(a + [Arrive(1, Some(key))] + [Lookup(r)], Create(r));
    b := a + [Arrive(1, Some(key))] + [Lookup(r)] + [Create(r)];
    hide Run;
    assert Run(b).requests == s.requests + [Request(1, Some(key), Created(s.db.next))];
  }

  /** Its failing instance: a crash between the two writes, and a retry that is answered. */
  lemma CrashLeavesASecondDelivery(key: string)
    ensures exists actions :: var s := Run(actions);
              && Settled(s, 1, key) && |s.requests| == 2 && s.requests[1].stage.Responded?
              && CrashedWithRow(s, 1, key) == {0} && |RowsOf(s.db, 1, key)| == 2
  {
    var a := RunToCreated([], key);
    RunSnoc(a, Crash(0));
    var b := RunToCreated(a + [Crash(0)], key);
    RunSnoc(b, InsertKey(1));
    var c := b + [InsertKey(1)];
    var s := Run(c);
    hide Run;
    assert s.requests == [Request(1, Some(key), Crashed(Some(0))), Request(1, Some(key), Responded(1))];
    assert CrashedWithRow(s, 1, key) == {0};
    OneDeliveryPerKey(c, 1);
  }

  // ---- requests that nobody disturbs -----------------------------------------------------------

  /** A known key is answered at once, with no row made; else one row is made, its key inserted, and it is the answer. */
  lemma CreateAlone(s: State, shop: ShopId, key: Option<string>)
    ensures var r := |s.requests|;
            var s2 := Do(Do(s, Arrive(shop, key)), Lookup(r));
            if key.Some? && (shop, key.value) in s.db.keys then
              s2.db == s.db && s2.requests == s.requests + [Request(shop, key, Responded(s.db.keys[(shop, key.value)]))]
            else
              && s2 == State(s.db, s.requests + [Request(shop, key, Missed)])
              && Do(Do(s2, Create(r)), InsertKey(r))
              == State(Db(s.db.rows[s.db.next := Row(shop, key, r)],
                          if key.Some? then s.db.keys[(shop, key.value) := s.db.next] else s.db.keys, s.db.next + 1),
                       s.requests + [Request(shop, key, Responded(s.db.next))])
  {
  }

  /** Who finds its key taken at the insert deletes its own row and answers with the delivery of the other. */
  lemma LoserAlone(s: State, r: nat, own: DeliveryId)
    requires r < |s.requests| && s.requests[r].stage == Created(own) && s.requests[r].key.Some?
    requires (s.requests[r].shop, s.requests[r].key.value) in s.db.keys
    requires forall k :: k in s.db.keys ==> s.db.keys[k] != own
    ensures var winner := s.db.keys[(s.requests[r].shop, s.requests[r].key.value)];
            (Do(Do(Do(s, InsertKey(r)), Reread(r)), DeleteOwn(r))
             == State(Db(s.db.rows - {own}, s.db.keys, s.db.next), s.requests[r := s.requests[r].(stage := Responded(winner))]))
  {
    assert DeleteRow(s.db, own).keys == s.db.keys;
  }

  // ---- the view as the code runs it ----------------------------------------------------------

  datatype Call = Call(shop: ShopId, key: Option<string>)

  /** The table only gains rows and keys, and every new key points to a row that is new. */
  ghost predicate Grows(before: Db, after: Db) {
    && KeysPoint(after) && after.next >= before.next
    && (forall d :: d in before.rows ==> d in after.rows && after.rows[d] == before.rows[d])
    && (forall k :: k in before.keys ==> k in after.keys && after.keys[k] == before.keys[k])
    && (forall k :: k in after.keys && k !in before.keys ==> after.keys[k] >= before.next)
  }

  /**
   A call was answered with `id`: whoever wins, that is the delivery its key points to, and the row the call
   made for itself is gone unless it is that delivery. `alone` says that nothing was served in between.
   */
  ghost predicate Served(before: Db, after: Db, call: Call, alone: bool, id: DeliveryId) {
    && Grows(before, after) && id in after.rows
    && (call.key.Some? ==>
         (call.shop, call.key.value) in after.keys && after.keys[(call.shop, call.key.value)] == id)
    && (call.key.Some? && (call.shop, call.key.value) in before.keys ==> after == before)
    && (call.key.None? || (alone && (call.shop, call.key.value) !in before.keys) ==>
         id == before.next && after.rows[id] == Row(call.shop, call.key, 0))
    && (id != before.next ==> before.next !in after.rows)
    && (alone ==> after.rows.Keys == before.rows.Keys + {id})
  }

  lemma WinnerIsServed(before: Db, mid: Db, call: Call, alone: bool)
    requires KeysPoint(before) && Grows(CreateRow(before, Row(call.shop, call.key, 0)), mid)
    requires alone ==> mid == CreateRow(before, Row(call.shop, call.key, 0))
    requires call.key.Some? ==> (call.shop, call.key.value) !in mid.keys
    ensures var keys := if call.key.Some? then mid.keys[(call.shop, call.key.value) := before.next] else mid.keys;
            Served(before, mid.(keys := keys), call, alone, before.next)
  {
  }

  lemma LoserIsServed(before: Db, mid: Db, call: Call, alone: bool)
    requires KeysPoint(before) && Grows(CreateRow(before, Row(call.shop, call.key, 0)), mid)
    requires call.key.Some? && (call.shop, call.key.value) in mid.keys && (call.shop, call.key.value) !in before.keys
    requires alone ==> mid == CreateRow(before, Row(call.shop, call.key, 0))
    ensures Served(before, DeleteRow(mid, before.next), call, alone, mid.keys[(call.shop, call.key.value)])
  {
    assert forall k :: k in mid.keys ==> mid.keys[k] != before.next;
    assert DeleteRow(mid, before.next).keys == mid.keys;
  }

  class Store {
    var db: Db

    ghost predicate Valid()
      reads this
    {
      KeysPoint(db)
    }

    constructor ()
      ensures Valid() && db == EMPTY.db
    {
      db := Db(map[], map[], 0);
    }

    /** `post`, with whole other requests served between its look-up and its insert. */
    method Post(call: Call, between: seq<Call>) returns (id: DeliveryId)
      requires Valid()
      modifies this
      ensures Valid() && Served(old(db), db, call, between == [], id)
      decreases |between|
    {
      if call.key.Some? && (call.shop, call.key.value) in db.keys {
        return db.keys[(call.shop, call.key.value)];
      }
      hide DeleteRow;
      ghost var before := db;
      var own := db.next;
      db := CreateRow(db, Row(call.shop, call.key, 0));
      if between != [] {
        var _ := Post(between[0], between[1..]);
      }
      hide CreateRow, Grows, Served, KeysPoint;
      if call.key.Some? && (call.shop, call.key.value) in db.keys {
        LoserIsServed(before, db, call, between == []);
        id := db.keys[(call.shop, call.key.value)];
        db := DeleteRow(db, own);
        return id;
      }
      WinnerIsServed(before, db, call, between == []);
      if call.key.Some? {
        db := db.(keys := db.keys[(call.shop, call.key.value) := own]);
      }
      id := own;
    }
  }
}
