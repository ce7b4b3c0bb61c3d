/**
 * `POST /api/inventory/consume-fifo`: consume `quantity` units of one product
 * group, earliest expiry first and then earliest stocked.
 */
module ConsumeFifo {
  import opened Base
  import opened Js
  import opened Ordering
  import opened Models
  import opened Db

  /** The request body; an empty `reason` is an absent one. */
  datatype ConsumeBody = ConsumeBody(productGroupId: BodyId, quantity: int, reason: string)

  /** The success body: how many units were consumed and their ids. */
  datatype Consumed = Consumed(consumedCount: nat, units: seq<Id>)

  /** The FIFO order: expiry date, then stocked date, both ascending. */
  function FifoKey(u: InventoryUnit): Key {
    (u.expiryDate, u.stockedDate)
  }

  /** A unit counted as stock of the group: it belongs to it and is ACTIVE. */
  predicate InStock(u: InventoryUnit, gid: Id) {
    u.productGroupId == gid && u.status == ACTIVE
  }

  /** `find({productGroupId, status: 'ACTIVE'})`, in store order. */
  function ActiveOf(units: seq<InventoryUnit>, gid: Id): (r: seq<InventoryUnit>)
    ensures forall u :: u in r <==> u in units && InStock(u, gid)
    decreases |units|
  {
    if units == [] then []
    else (if InStock(units[0], gid) then [units[0]] else []) + ActiveOf(units[1..], gid)
  }

  /** The group's stock level: the number of its ACTIVE units. */
  function StockCount(units: seq<InventoryUnit>, gid: Id): nat {
    |ActiveOf(units, gid)|
  }

  /** The query: ACTIVE units of the group, sorted by `FifoKey`, limited to `n`. */
  function Select(units: seq<InventoryUnit>, gid: Id, n: nat): (r: seq<InventoryUnit>)
    ensures |r| <= n
    ensures SortedBy(r, FifoKey)
  {
    Take(SortByKey(ActiveOf(units, gid), FifoKey), n)
  }

  function Ids(us: seq<InventoryUnit>): (r: seq<Id>)
    ensures |r| == |us| && forall i :: 0 <= i < |us| ==> r[i] == us[i].id
  {
    seq(|us|, i requires 0 <= i < |us| => us[i].id)
  }

  /** `reason || 'SALES'` */
  function ReasonOrDefault(reason: string): string {
    if reason != "" then reason else "SALES"
  }

  function Consume(u: InventoryUnit, now: Time, reason: string): InventoryUnit {
    u.(status := CONSUMED, consumedAt := Some(now), consumedReason := Some(reason))
  }

  /** `updateMany({_id: {$in: ids}}, {$set: ...})` */
  function MarkConsumed(units: seq<InventoryUnit>, ids: seq<Id>, now: Time, reason: string): (r: seq<InventoryUnit>)
    ensures |r| == |units|
    ensures forall k :: 0 <= k < |units| ==>
      r[k] == if units[k].id in ids then Consume(units[k], now, reason) else units[k]
    decreases |units|
  {
    if units == [] then []
    else
      var head := if units[0].id in ids then Consume(units[0], now, reason) else units[0];
      [head] + MarkConsumed(units[1..], ids, now, reason)
  }

  /** The message of the CastError `find` throws for a group id that is not an ObjectId, shown as `text`. */
  function CastMessage(text: string): string {
    "Cast to ObjectId failed for value \"" + text + "\" (type string) at path \"productGroupId\" for model \"InventoryUnit\""
  }

  function InsufficientMessage(requested: int, available: nat): string {
    "Insufficient stock. Requested " + IntToString(requested) + ", available " + NatToString(available)
  }

  /** The handler as a function of the unit collection: the new collection and the reply. */
  function Outcome(units: seq<InventoryUnit>, session: Option<Session>, body: ConsumeBody, now: Time)
    : (r: (seq<InventoryUnit>, Http<Consumed>))
    ensures |r.0| == |units|
    ensures r.1.Err? ==> r.0 == units
    ensures r.1.Ok? ==>
      session.Some? && body.productGroupId.ObjectId? && body.quantity > 0
      && r.1.value.units == Ids(Select(units, body.productGroupId.id, body.quantity))
  {
    if session.None? then (units, Err(401, "Unauthorized"))
    else if body.productGroupId.Falsy? || body.quantity <= 0 then (units, Err(400, "Invalid parameters"))
    else if body.productGroupId.Uncastable? then (units, Err(500, CastMessage(body.productGroupId.text)))
    else
      var picked := Select(units, body.productGroupId.id, body.quantity);
      if |picked| < body.quantity then
        (units, Err(400, InsufficientMessage(body.quantity, |picked|)))
      else
        (MarkConsumed(units, Ids(picked), now, ReasonOrDefault(body.reason)),
         Ok(200, Consumed(|picked|, Ids(picked))))
  }

  method Post(db: Store, session: Option<Session>, body: ConsumeBody, now: Time) returns (reply: Http<Consumed>)
    requires db.Valid()
    modifies db
    ensures db.Valid()
    ensures (db.units, reply) == Outcome(old(db.units), session, body, now)
    ensures db.groups == old(db.groups) && db.requests == old(db.requests) && db.users == old(db.users)
    ensures db.sales == old(db.sales) && db.supplierInvoices == old(db.supplierInvoices)
    ensures db.settings == old(db.settings) && db.nextId == old(db.nextId)
  {
    if session.None? {
      return Err(401, "Unauthorized");
    }
    if body.productGroupId.Falsy? || body.quantity <= 0 {
      return Err(400, "Invalid parameters");
    }
    if body.productGroupId.Uncastable? {
      return Err(500, CastMessage(body.productGroupId.text));
    }
    var units := Select(db.units, body.productGroupId.id, body.quantity);
    if |units| < body.quantity {
      return Err(400, InsufficientMessage(body.quantity, |units|));
    }
    var unitIds := Ids(units);
    var before := db.units;
    db.units := MarkConsumed(db.units, unitIds, now, ReasonOrDefault(body.reason));
    DistinctPointwise(before, db.units, UnitId);
    DistinctPointwise(before, db.units, Sku);
    reply := Ok(200, Consumed(|units|, unitIds));
  }

  // -------------------------------------------------------------- properties

  /** Rejections (no session, bad parameters, too little stock) leave every unit as it was. */
  lemma RejectionChangesNothing(units: seq<InventoryUnit>, session: Option<Session>, body: ConsumeBody, now: Time)
    requires Outcome(units, session, body, now).1.Err?
    ensures Outcome(units, session, body, now).0 == units
  {
  }

  lemma NoSessionIsUnauthorized(units: seq<InventoryUnit>, body: ConsumeBody, now: Time)
    ensures Outcome(units, None, body, now) == (units, Err(401, "Unauthorized"))
  {
  }

  /** A missing group or a quantity that is zero or negative is a 400 whatever the stock. */
  lemma BadParametersRejected(units: seq<InventoryUnit>, s: Session, body: ConsumeBody, now: Time)
    requires body.productGroupId.Falsy? || body.quantity <= 0
    ensures Outcome(units, Some(s), body, now) == (units, Err(400, "Invalid parameters"))
  {
  }

  /**
   * A truthy group id that is not an ObjectId, such as "abc", with a positive
   * quantity: the query's cast throws and the catch block answers 500, whatever
   * the stock, and no unit changes.
   */
  lemma UncastableGroupFails(units: seq<InventoryUnit>, s: Session, text: string, quantity: int, reason: string, now: Time)
    requires quantity > 0
    ensures Outcome(units, Some(s), ConsumeBody(Uncastable(text), quantity, reason), now)
      == (units, Err(500, CastMessage(text)))
  {
  }

  /** The selection holds ACTIVE units of the group only, and no more than were asked for. */
  lemma SelectionIsStock(units: seq<InventoryUnit>, gid: Id, n: nat)
    ensures |Select(units, gid, n)| == if n <= StockCount(units, gid) then n else StockCount(units, gid)
    ensures forall u :: u in Select(units, gid, n) ==> u in units && InStock(u, gid)
  {
    var sorted := SortByKey(ActiveOf(units, gid), FifoKey);
    forall u | u in Select(units, gid, n)
      ensures u in units && InStock(u, gid)
    {
      SortedMembership(ActiveOf(units, gid), FifoKey, u);
    }
  }

  /**
   * The selection is FIFO: every selected unit comes no later, by (expiry,
   * stocked), than every unit of the group's stock that was not selected.
   */
  lemma SelectionIsEarliest(units: seq<InventoryUnit>, gid: Id, n: nat, u: InventoryUnit, v: InventoryUnit)
    requires u in Select(units, gid, n)
    requires v in units && InStock(v, gid) && v !in Select(units, gid, n)
    ensures KeyLe(FifoKey(u), FifoKey(v))
  {
    var active := ActiveOf(units, gid);
    var sorted := SortByKey(active, FifoKey);
    SortedMembership(active, FifoKey, v);
    var j :| 0 <= j < |sorted| && sorted[j] == v;
    var i :| 0 <= i < |Take(sorted, n)| && Take(sorted, n)[i] == u;
    assert !(j < |Take(sorted, n)|);
    TakeIsSmallest(sorted, FifoKey, n);
  }

  /** Consumption moved to the units, field by field: */
  lemma ConsumedUnits(units: seq<InventoryUnit>, s: Session, body: ConsumeBody, now: Time, k: nat)
    requires Outcome(units, Some(s), body, now).1.Ok?
    requires k < |units|
    ensures |Outcome(units, Some(s), body, now).0| == |units|
    ensures units[k].id in Outcome(units, Some(s), body, now).1.value.units ==>
      Outcome(units, Some(s), body, now).0[k]
        == units[k].(status := CONSUMED, consumedAt := Some(now),
                     consumedReason := Some(if body.reason == "" then "SALES" else body.reason))
    ensures units[k].id !in Outcome(units, Some(s), body, now).1.value.units ==>
      Outcome(units, Some(s), body, now).0[k] == units[k]
  {
  }

  function HitCount(units: seq<InventoryUnit>, gid: Id, ids: seq<Id>): nat
    decreases |units|
  {
    if units == [] then 0
    else (if InStock(units[0], gid) && units[0].id in ids then 1 else 0) + HitCount(units[1..], gid, ids)
  }

  lemma {:induction false} StockAfterMark(units: seq<InventoryUnit>, gid: Id, ids: seq<Id>, now: Time, reason: string)
    ensures StockCount(MarkConsumed(units, ids, now, reason), gid) + HitCount(units, gid, ids) == StockCount(units, gid)
    decreases |units|
  {
    if units != [] {
      StockAfterMark(units[1..], gid, ids, now, reason);
      var m := MarkConsumed(units, ids, now, reason);
      assert m[1..] == MarkConsumed(units[1..], ids, now, reason);
    }
  }

  lemma {:induction false} HitCountSplit(units: seq<InventoryUnit>, gid: Id, x: Id, rest: seq<Id>)
    requires x !in rest
    ensures HitCount(units, gid, [x] + rest) == HitCount(units, gid, [x]) + HitCount(units, gid, rest)
    decreases |units|
  {
    if units != [] {
      HitCountSplit(units[1..], gid, x, rest);
    }
  }

  lemma {:induction false} HitCountAbsent(units: seq<InventoryUnit>, gid: Id, x: Id)
    requires forall k :: 0 <= k < |units| ==> units[k].id != x
    ensures HitCount(units, gid, [x]) == 0
    decreases |units|
  {
    if units != [] {
      HitCountAbsent(units[1..], gid, x);
    }
  }

  lemma {:induction false} HitCountOne(units: seq<InventoryUnit>, gid: Id, x: Id, w: nat)
    requires Distinct(units, UnitId)
    requires w < |units| && units[w].id == x && InStock(units[w], gid)
    ensures HitCount(units, gid, [x]) == 1
    decreases |units|
  {
    if w == 0 {
      assert forall k :: 0 <= k < |units[1..]| ==> units[1..][k].id != x by {
        forall k | 0 <= k < |units[1..]| ensures units[1..][k].id != x {
          assert UnitId(units[0]) != UnitId(units[k + 1]);
        }
      }
      HitCountAbsent(units[1..], gid, x);
    } else {
      assert UnitId(units[0]) != UnitId(units[w]);
      HitCountOne(units[1..], gid, x, w - 1);
    }
  }

  lemma {:induction false} HitCountNone(units: seq<InventoryUnit>, gid: Id)
    ensures HitCount(units, gid, []) == 0
    decreases |units|
  {
    if units != [] {
      HitCountNone(units[1..], gid);
    }
  }

  /** `x` is the id of an ACTIVE unit of group `gid`. */
  ghost predicate NamesStock(units: seq<InventoryUnit>, gid: Id, x: Id) {
    exists w :: 0 <= w < |units| && units[w].id == x && InStock(units[w], gid)
  }

  /** Every id of the selection names an ACTIVE unit of the group. */
  lemma SelectedIdsInStock(units: seq<InventoryUnit>, gid: Id, n: nat, ids: seq<Id>)
    requires ids == Ids(Select(units, gid, n))
    ensures forall i :: 0 <= i < |ids| ==> NamesStock(units, gid, ids[i])
  {
    var picked := Select(units, gid, n);
    SelectionIsStock(units, gid, n);
    assert |ids| == |picked|;
    forall i | 0 <= i < |ids|
      ensures NamesStock(units, gid, ids[i])
    {
      var u := picked[i];
      assert u in picked;
      assert u in units && InStock(u, gid);
      var w :| 0 <= w < |units| && units[w] == u;
      assert units[w].id == ids[i] && InStock(units[w], gid);
    }
  }

  lemma {:induction false} HitCountAll(units: seq<InventoryUnit>, gid: Id, ids: seq<Id>)
    requires Distinct(units, UnitId)
    requires forall i, j :: 0 <= i < j < |ids| ==> ids[i] != ids[j]
    requires forall i :: 0 <= i < |ids| ==> NamesStock(units, gid, ids[i])
    ensures HitCount(units, gid, ids) == |ids|
    decreases |ids|
  {
    if ids == [] {
      HitCountNone(units, gid);
    } else {
      assert ids == [ids[0]] + ids[1..];
      assert ids[0] !in ids[1..];
      HitCountSplit(units, gid, ids[0], ids[1..]);
      var w :| 0 <= w < |units| && units[w].id == ids[0] && InStock(units[w], gid);
      HitCountOne(units, gid, ids[0], w);
      assert forall i :: 0 <= i < |ids[1..]| ==> ids[1..][i] == ids[i + 1];
      HitCountAll(units, gid, ids[1..]);
    }
  }

  lemma {:induction false} ActiveOfDistinct(units: seq<InventoryUnit>, gid: Id)
    requires Distinct(units, UnitId)
    ensures Distinct(ActiveOf(units, gid), UnitId)
    decreases |units|
  {
    if units != [] {
      ActiveOfDistinct(units[1..], gid);
      var rest := ActiveOf(units[1..], gid);
      forall k | 0 <= k < |rest|
        ensures UnitId(units[0]) != UnitId(rest[k])
      {
        assert rest[k] in units[1..];
      }
    }
  }

  /**
   * In a store whose unit ids are distinct, a successful consumption lowers the
   * group's stock by exactly the requested quantity, and reports that count.
   */
  lemma ConsumeLowersStockByQuantity(units: seq<InventoryUnit>, s: Session, body: ConsumeBody, now: Time)
    requires Distinct(units, UnitId)
    requires Outcome(units, Some(s), body, now).1.Ok?
    ensures Outcome(units, Some(s), body, now).1.value.consumedCount == body.quantity
    ensures |Outcome(units, Some(s), body, now).1.value.units| == body.quantity
    ensures StockCount(Outcome(units, Some(s), body, now).0, body.productGroupId.id)
      == StockCount(units, body.productGroupId.id) - body.quantity
  {
    var gid := body.productGroupId.id;
    var active := ActiveOf(units, gid);
    var sorted := SortByKey(active, FifoKey);
    var picked := Select(units, gid, body.quantity);
    ActiveOfDistinct(units, gid);
    DistinctPermutation(active, sorted, UnitId);
    var ids := Ids(picked);
    forall i, j | 0 <= i < j < |ids|
      ensures ids[i] != ids[j]
    {
      assert UnitId(sorted[i]) != UnitId(sorted[j]);
    }
    SelectedIdsInStock(units, gid, body.quantity, ids);
    HitCountAll(units, gid, ids);
    StockAfterMark(units, gid, ids, now, ReasonOrDefault(body.reason));
  }

  /** Too little stock: the 400 names the requested and the available counts. */
  lemma InsufficientStockReported(units: seq<InventoryUnit>, s: Session, body: ConsumeBody, now: Time)
    requires body.productGroupId.ObjectId? && 0 < body.quantity
    requires StockCount(units, body.productGroupId.id) < body.quantity
    ensures Outcome(units, Some(s), body, now) ==
      (units, Err(400, InsufficientMessage(body.quantity, StockCount(units, body.productGroupId.id))))
  {
    SelectionIsStock(units, body.productGroupId.id, body.quantity);
  }

  /** Enough stock: the call succeeds. */
  lemma SufficientStockSucceeds(units: seq<InventoryUnit>, s: Session, body: ConsumeBody, now: Time)
    requires body.productGroupId.ObjectId? && 0 < body.quantity
    requires body.quantity <= StockCount(units, body.productGroupId.id)
    ensures Outcome(units, Some(s), body, now).1.Ok?
  {
    SelectionIsStock(units, body.productGroupId.id, body.quantity);
  }

  /**
   * After a successful consumption, every unit that was consumed comes no later
   * in FIFO order than every unit of the group still in stock.
   */
  lemma ConsumedPrecedeRemaining(units: seq<InventoryUnit>, s: Session, body: ConsumeBody, now: Time, c: nat, r: nat)
    requires Distinct(units, UnitId)
    requires Outcome(units, Some(s), body, now).1.Ok?
    requires c < |units| && units[c].id in Outcome(units, Some(s), body, now).1.value.units
    requires r < |units| && InStock(Outcome(units, Some(s), body, now).0[r], body.productGroupId.id)
    ensures KeyLe(FifoKey(units[c]), FifoKey(units[r]))
  {
    var gid := body.productGroupId.id;
    var picked := Select(units, gid, body.quantity);
    var ids := Ids(picked);
    assert units[r].id !in ids;
    var i :| 0 <= i < |ids| && ids[i] == units[c].id;
    var u := picked[i];
    assert u in picked;
    SelectionIsStock(units, gid, body.quantity);
    assert units[r] !in picked;
    SelectionIsEarliest(units, gid, body.quantity, u, units[r]);
    var w :| 0 <= w < |units| && units[w] == u;
    assert w == c;
  }
}
