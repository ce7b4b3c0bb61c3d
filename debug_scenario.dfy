/**
 * `GET /api/debug/verify`: a scripted walk through the procurement
 * lifecycle. A request for 10 units of a fresh product group is approved in
 * full, received as 4 units expiring early and then 6 expiring later, the
 * group's units are counted, one unit is picked in FIFO order and marked
 * CONSUMED; every step appends a PASS or FAIL entry to the results.
 */
module DebugScenario {
  import opened Base
  import opened Js
  import opened Ordering
  import opened Models
  import ConsumeFifo
  import InventoryImport
  import CsvImport

  /** One entry of `results`. */
  datatype LogEntry = LogEntry(step: string, pass: bool)

  const TestPrefix: string := "TEST_AUTO_"
  /** `new Date('2025-01-01')` and `new Date('2025-02-01')` in milliseconds. */
  const EarlyExpiry: Time := 1735689600000
  const LateExpiry: Time := 1738368000000

  const GroupStep: string := "TC-PG-01: Create Product Group"
  const RequestStep: string := "TC-PR-01: Create Procurement Request"
  const ApproveStep: string := "TC-PR-02: Admin Approve"
  const PartialStep: string := "TC-RS-06: Partial Receive"
  const CountStep: string := "TC-RS-04: Inventory Record Creation"
  const FifoStep: string := "TC-FIFO-01: FIFO by Expiry"
  const StatusStep: string := "TC-INV-Status: Status Update"

  const StepNames: seq<string> := [GroupStep, RequestStep, ApproveStep, PartialStep, CountStep, FifoStep, StatusStep]

  /** The SKU of the `i`-th unit of a batch: `<prefix>SKU_<i>_<tag>`. */
  function BatchSku(i: nat, tag: string): string {
    TestPrefix + "SKU_" + NatToString(i) + "_" + tag
  }

  /** The `i`-th unit of a batch: cost 10, ACTIVE; `clock(i)` is its `new Date()`. */
  function BatchUnit(gid: Id, firstId: Id, tag: string, expiry: Time, clock: nat -> Time, i: nat): InventoryUnit {
    InventoryUnit(firstId + i, gid, BatchSku(i, tag), expiry, clock(i), 10.0, ACTIVE, None, None, clock(i))
  }

  /**
   * No stored unit carries one of the ten SKUs the script inserts. `clearData`
   * deletes only product groups, so the units of an earlier run keep them.
   */
  predicate NoScriptedSku(units: seq<InventoryUnit>) {
    (forall i :: 0 <= i < 4 ==> !InventoryImport.SkuTaken(units, BatchSku(i, "EARLY")))
    && (forall i :: 0 <= i < 6 ==> !InventoryImport.SkuTaken(units, BatchSku(i, "LATE")))
  }

  function Batch(gid: Id, firstId: Id, tag: string, expiry: Time, clock: nat -> Time, n: nat): (b: seq<InventoryUnit>)
    ensures |b| == n
  {
    seq(n, i requires 0 <= i < n => BatchUnit(gid, firstId, tag, expiry, clock, i))
  }

  /** `countDocuments({ productGroupId })`: units of the group in any status. */
  function GroupCount(units: seq<InventoryUnit>, gid: Id): nat
    decreases |units|
  {
    if units == [] then 0 else (if units[0].productGroupId == gid then 1 else 0) + GroupCount(units[1..], gid)
  }

  /** `updateOne({ _id: id }, { status })`: the first unit with that id takes the status. */
  function SetStatus(units: seq<InventoryUnit>, id: Id, status: UnitStatus): (r: seq<InventoryUnit>)
    ensures |r| == |units|
    decreases |units|
  {
    if units == [] then []
    else if units[0].id == id then [units[0].(status := status)] + units[1..]
    else [units[0]] + SetStatus(units[1..], id, status)
  }

  /** `findById(id)`: the first unit with that id. */
  function FindById(units: seq<InventoryUnit>, id: Id): Option<InventoryUnit>
    decreases |units|
  {
    if units == [] then None else if units[0].id == id then Some(units[0]) else FindById(units[1..], id)
  }

  class Scenario {
    var request: ProcurementRequest
    var units: seq<InventoryUnit>
    /** The id the next inserted unit gets. */
    var nextId: nat
    var results: seq<LogEntry>

    /**
     * The state after the group and the request are created: `request` is the
     * PENDING request for the group, and `existing` the units already stored.
     */
    constructor (existing: seq<InventoryUnit>, created: ProcurementRequest, firstFreeId: nat)
      ensures request == created && units == existing && nextId == firstFreeId
      ensures results == [LogEntry(GroupStep, true), LogEntry(RequestStep, true)]
    {
      request, units, nextId := created, existing, firstFreeId;
      results := [LogEntry(GroupStep, true), LogEntry(RequestStep, true)];
    }

    /** `request.status = 'APPROVED'; request.approvedQty = qty`, logged as a pass. */
    method Approve(qty: real)
      modifies this
      ensures request == old(request).(status := APPROVED, approvedQty := qty)
      ensures units == old(units) && nextId == old(nextId)
      ensures results == old(results) + [LogEntry(ApproveStep, true)]
    {
      request := request.(status := APPROVED);
      request := request.(approvedQty := qty);
      results := results + [LogEntry(ApproveStep, true)];
    }

    /**
     * One receipt: the loop builds `n` units of the request's group and they
     * go through the ordered `insertMany`. When a SKU is already stored the
     * insert throws (`ok` is false) and the request is left as it was;
     * otherwise `receivedQty` grows by `n` and the status is set to `status`.
     */
    method Receive(n: nat, tag: string, expiry: Time, clock: nat -> Time, status: RequestStatus) returns (ok: bool)
      modifies this
      ensures var ins := CsvImport.InsertMany(old(units), old(nextId),
                                              Batch(old(request).productGroupId, old(nextId), tag, expiry, clock, n));
        units == ins.units && nextId == ins.nextId && ok == ins.ok
      ensures ok ==> request == old(request).(receivedQty := old(request).receivedQty + n as real, status := status)
      ensures !ok ==> request == old(request)
      ensures results == old(results)
    {
      var batch: seq<InventoryUnit> := [];
      var i := 0;
      while i < n
        invariant 0 <= i <= n
        invariant batch == Batch(request.productGroupId, nextId, tag, expiry, clock, i)
      {
        batch := batch + [BatchUnit(request.productGroupId, nextId, tag, expiry, clock, i)];
        i := i + 1;
      }
      var ins := CsvImport.InsertMany(units, nextId, batch);
      units, nextId, ok := ins.units, ins.nextId, ins.ok;
      if !ok {
        return;
      }
      request := request.(receivedQty := request.receivedQty + n as real);
      request := request.(status := status);
    }

    method Log(step: string, pass: bool)
      modifies this
      ensures results == old(results) + [LogEntry(step, pass)]
      ensures request == old(request) && units == old(units) && nextId == old(nextId)
    {
      results := results + [LogEntry(step, pass)];
    }

    /** `InventoryUnit.updateOne(..., { status: 'CONSUMED' })` */
    method MarkConsumed(id: Id)
      modifies this
      ensures units == SetStatus(old(units), id, CONSUMED)
      ensures request == old(request) && nextId == old(nextId) && results == old(results)
    {
      units := SetStatus(units, id, CONSUMED);
    }

    /**
     * Steps 3 to 5: full approval, then a receipt of 4 early-expiring units and
     * one of 6 later ones. Both receipts go through exactly when no stored unit
     * carries a scripted SKU; otherwise the first failing `insertMany` throws.
     */
    method ApproveAndReceive(clock1: nat -> Time, clock2: nat -> Time) returns (ok: bool)
      modifies this
      ensures ok <==> NoScriptedSku(old(units))
      ensures ok ==> request == old(request).(status := RECEIVED, approvedQty := 10.0,
                                              receivedQty := old(request).receivedQty + 10.0)
      ensures ok ==> units == old(units) + Batch(request.productGroupId, old(nextId), "EARLY", EarlyExpiry, clock1, 4)
                                         + Batch(request.productGroupId, old(nextId) + 4, "LATE", LateExpiry, clock2, 6)
      ensures ok ==> results == old(results) + [LogEntry(ApproveStep, true), LogEntry(PartialStep, true)]
    {
      var start, first := units, nextId;
      Approve(10.0);
      ghost var gid := request.productGroupId;
      ghost var early := Batch(gid, first, "EARLY", EarlyExpiry, clock1, 4);
      ReceiptsOutcome(start, first, gid, clock1, clock2);
      ok := Receive(4, "EARLY", EarlyExpiry, clock1, PARTIALLY_RECEIVED);
      if !ok {
        return;
      }
      assert units == start + early && nextId == first + 4;
      Log(PartialStep, true);
      ok := Receive(6, "LATE", LateExpiry, clock2, RECEIVED);
    }

    /** Steps 5 to 7: the unit count, the FIFO pick of one unit and its status update. */
    method CountPickConsume(start: seq<InventoryUnit>, first: nat, clock1: nat -> Time, clock2: nat -> Time)
      returns (picked: InventoryUnit)
      requires forall k :: 0 <= k < |start| ==> start[k].productGroupId != request.productGroupId
      requires units == start + Batch(request.productGroupId, first, "EARLY", EarlyExpiry, clock1, 4)
                              + Batch(request.productGroupId, first + 4, "LATE", LateExpiry, clock2, 6)
      modifies this
      ensures request == old(request)
      ensures GroupCount(units, request.productGroupId) == 10
      ensures picked.productGroupId == request.productGroupId && picked.expiryDate == EarlyExpiry
      ensures Contains(picked.sku, "EARLY")
      ensures FindById(units, picked.id).Some? && FindById(units, picked.id).value.status == CONSUMED
      ensures results == old(results) + [LogEntry(CountStep, true), LogEntry(FifoStep, true), LogEntry(StatusStep, true)]
    {
      var gid := request.productGroupId;
      ScriptOutcome(start, gid, first, clock1, clock2);
      Log(CountStep, GroupCount(units, gid) == 10);
      var chosen := ConsumeFifo.Select(units, gid, 1);
      picked := chosen[0];
      Log(FifoStep, |chosen| == 1 && Contains(picked.sku, "EARLY"));
      MarkConsumed(picked.id);
      Log(StatusStep, true);
    }

    /**
     * The whole script from the created request on. It completes, with the
     * picked unit, exactly when no stored unit carries one of its SKUs; otherwise an
     * `insertMany` throws and the route answers 500 from its catch. When it
     * completes, with no stored unit of the fresh group, every step passes:
     * the request ends RECEIVED with all 10 approved units received, the group
     * holds 10 units, the FIFO pick is an early-expiry unit, and that unit
     * ends CONSUMED.
     */
    method Run(clock1: nat -> Time, clock2: nat -> Time) returns (picked: Option<InventoryUnit>)
      requires request.status == PENDING && request.receivedQty == 0.0
      requires forall k :: 0 <= k < |units| ==> units[k].productGroupId != request.productGroupId
      requires results == [LogEntry(GroupStep, true), LogEntry(RequestStep, true)]
      modifies this
      ensures picked.Some? <==> NoScriptedSku(old(units))
      ensures picked.Some? ==> request.status == RECEIVED && request.approvedQty == 10.0 && request.receivedQty == 10.0
      ensures picked.Some? ==> GroupCount(units, request.productGroupId) == 10
      ensures picked.Some? ==>
        picked.value.productGroupId == request.productGroupId && picked.value.expiryDate == EarlyExpiry
      ensures picked.Some? ==> Contains(picked.value.sku, "EARLY")
      ensures picked.Some? ==>
        FindById(units, picked.value.id).Some? && FindById(units, picked.value.id).value.status == CONSUMED
      ensures picked.Some? ==>
        |results| == |StepNames| && forall k :: 0 <= k < |results| ==> results[k] == LogEntry(StepNames[k], true)
    {
      var start := units;
      var first := nextId;
      var ok := ApproveAndReceive(clock1, clock2);
      if !ok {
        return None;
      }
      var u := CountPickConsume(start, first, clock1, clock2);
      picked := Some(u);
      assert results == [LogEntry(GroupStep, true), LogEntry(RequestStep, true), LogEntry(ApproveStep, true),
                         LogEntry(PartialStep, true), LogEntry(CountStep, true), LogEntry(FifoStep, true),
                         LogEntry(StatusStep, true)];
    }
  }

  // -------------------------------------------------------------------- lemmas

  /**
   * What the script finds after both receipts: 10 units of the group, a
   * FIFO pick of one early-batch unit, and that unit CONSUMED after the
   * update, which leaves the count as it was.
   */
  lemma ScriptOutcome(start: seq<InventoryUnit>, gid: Id, first: nat, clock1: nat -> Time, clock2: nat -> Time)
    requires forall k :: 0 <= k < |start| ==> start[k].productGroupId != gid
    ensures var all := start + Batch(gid, first, "EARLY", EarlyExpiry, clock1, 4)
                             + Batch(gid, first + 4, "LATE", LateExpiry, clock2, 6);
      var chosen := ConsumeFifo.Select(all, gid, 1);
      GroupCount(all, gid) == 10 && |chosen| == 1
      && chosen[0].productGroupId == gid && chosen[0].expiryDate == EarlyExpiry && Contains(chosen[0].sku, "EARLY")
      && GroupCount(SetStatus(all, chosen[0].id, CONSUMED), gid) == 10
      && FindById(SetStatus(all, chosen[0].id, CONSUMED), chosen[0].id).Some?
      && FindById(SetStatus(all, chosen[0].id, CONSUMED), chosen[0].id).value.status == CONSUMED
  {
    var early := Batch(gid, first, "EARLY", EarlyExpiry, clock1, 4);
    var late := Batch(gid, first + 4, "LATE", LateExpiry, clock2, 6);
    var all := start + early + late;
    forall k | 0 <= k < |early|
      ensures Contains(early[k].sku, "EARLY")
    {
      EarlySku(k);
    }
    FreshGroupCount(start, early, late, gid);
    PickIsEarly(start, early, late, gid);
    var chosen := ConsumeFifo.Select(all, gid, 1);
    var u := chosen[0];
    var j :| 0 <= j < |early| && early[j] == u;
    assert all[|start| + j] == u;
    ConsumedFound(all, SetStatus(all, u.id, CONSUMED), u.id);
    SetStatusKeepsGroups(all, u.id, CONSUMED, gid);
  }

  lemma {:induction false} GroupCountAppend(a: seq<InventoryUnit>, b: seq<InventoryUnit>, gid: Id)
    ensures GroupCount(a + b, gid) == GroupCount(a, gid) + GroupCount(b, gid)
    decreases |a|
  {
    if a != [] {
      GroupCountAppend(a[1..], b, gid);
      assert (a + b)[1..] == a[1..] + b;
    } else {
      assert a + b == b;
    }
  }

  /** Counting a run of units by whether all or none belong to the group. */
  lemma {:induction false} GroupCountUniform(s: seq<InventoryUnit>, gid: Id, inGroup: bool)
    requires forall k :: 0 <= k < |s| ==> (s[k].productGroupId == gid) == inGroup
    ensures GroupCount(s, gid) == if inGroup then |s| else 0
    decreases |s|
  {
    if s != [] {
      GroupCountUniform(s[1..], gid, inGroup);
    }
  }

  /** A fresh group with two batches of 4 and 6 holds 10 units. */
  lemma FreshGroupCount(start: seq<InventoryUnit>, early: seq<InventoryUnit>, late: seq<InventoryUnit>, gid: Id)
    requires forall k :: 0 <= k < |start| ==> start[k].productGroupId != gid
    requires |early| == 4 && |late| == 6
    requires forall k :: 0 <= k < |early| ==> early[k].productGroupId == gid
    requires forall k :: 0 <= k < |late| ==> late[k].productGroupId == gid
    ensures GroupCount(start + early + late, gid) == 10
  {
    GroupCountAppend(start + early, late, gid);
    GroupCountAppend(start, early, gid);
    GroupCountUniform(start, gid, false);
    GroupCountUniform(early, gid, true);
    GroupCountUniform(late, gid, true);
  }

  /** A SKU of the early batch names it. */
  lemma EarlySku(i: nat)
    ensures Contains(TestPrefix + "SKU_" + NatToString(i) + "_" + "EARLY", "EARLY")
  {
    var s := TestPrefix + "SKU_" + NatToString(i) + "_" + "EARLY";
    SuffixContained(s, "EARLY");
  }

  lemma {:induction false} SuffixContained(s: string, suffix: string)
    requires EndsWith(s, suffix)
    ensures Contains(s, suffix)
    decreases |s|
  {
    if |s| > |suffix| {
      assert s[1..][|s[1..]| - |suffix|..] == s[|s| - |suffix|..];
      SuffixContained(s[1..], suffix);
    } else {
      assert s == suffix;
    }
  }

  /**
   * The FIFO pick of one unit, over stored units of other groups, an early
   * batch and a later-expiring batch of the group, is a unit of the early batch.
   */
  lemma PickIsEarly(start: seq<InventoryUnit>, early: seq<InventoryUnit>, late: seq<InventoryUnit>, gid: Id)
    requires forall k :: 0 <= k < |start| ==> start[k].productGroupId != gid
    requires |early| >= 1
    requires forall k :: 0 <= k < |early| ==>
      (early[k].productGroupId == gid && early[k].status == ACTIVE
       && early[k].expiryDate == EarlyExpiry && Contains(early[k].sku, "EARLY"))
    requires forall k :: 0 <= k < |late| ==> late[k].expiryDate == LateExpiry
    ensures var chosen := ConsumeFifo.Select(start + early + late, gid, 1);
      |chosen| == 1 && chosen[0] in early && chosen[0].productGroupId == gid
      && chosen[0].expiryDate == EarlyExpiry && Contains(chosen[0].sku, "EARLY")
  {
    var all := start + early + late;
    var chosen := ConsumeFifo.Select(all, gid, 1);
    var e := early[0];
    assert e in all && ConsumeFifo.InStock(e, gid);
    assert e in ConsumeFifo.ActiveOf(all, gid);
    ConsumeFifo.SelectionIsStock(all, gid, 1);
    var u := chosen[0];
    assert u in chosen;
    if e !in chosen {
      ConsumeFifo.SelectionIsEarliest(all, gid, 1, u, e);
    }
    assert u.expiryDate <= EarlyExpiry;
    assert u !in late;
    assert u !in start;
  }

  /** A status update moves no unit to another group. */
  lemma {:induction false} SetStatusKeepsGroups(units: seq<InventoryUnit>, id: Id, status: UnitStatus, gid: Id)
    ensures GroupCount(SetStatus(units, id, status), gid) == GroupCount(units, gid)
    decreases |units|
  {
    if units != [] {
      SetStatusKeepsGroups(units[1..], id, status, gid);
      var r := SetStatus(units, id, status);
      if units[0].id == id {
        assert r[1..] == units[1..];
      } else {
        assert r[1..] == SetStatus(units[1..], id, status);
      }
    }
  }

  /** After the update the unit found by the picked id is CONSUMED. */
  lemma {:induction false} ConsumedFound(before: seq<InventoryUnit>, after: seq<InventoryUnit>, id: Id)
    requires after == SetStatus(before, id, CONSUMED)
    requires exists k :: 0 <= k < |before| && before[k].id == id
    ensures FindById(after, id).Some? && FindById(after, id).value.status == CONSUMED
    decreases |before|
  {
    if before[0].id != id {
      var k :| 0 <= k < |before| && before[k].id == id;
      assert before[1..][k - 1].id == id;
      ConsumedFound(before[1..], after[1..], id);
    }
  }

  /**
   * The two receipts over the stored units `start`: the early batch goes in
   * exactly when none of its SKUs is stored, and then the late batch goes in
   * exactly when none of its SKUs is stored either.
   */
  lemma ReceiptsOutcome(start: seq<InventoryUnit>, first: nat, gid: Id, clock1: nat -> Time, clock2: nat -> Time)
    ensures var early := Batch(gid, first, "EARLY", EarlyExpiry, clock1, 4);
      var late := Batch(gid, first + 4, "LATE", LateExpiry, clock2, 6);
      var ins1 := CsvImport.InsertMany(start, first, early);
      var ins2 := CsvImport.InsertMany(start + early, first + 4, late);
      (ins1.ok <==> forall i :: 0 <= i < 4 ==> !InventoryImport.SkuTaken(start, BatchSku(i, "EARLY")))
      && (ins1.ok ==> ins1.units == start + early && ins1.nextId == first + 4)
      && (ins2.ok <==> forall i :: 0 <= i < 6 ==> !InventoryImport.SkuTaken(start, BatchSku(i, "LATE")))
      && (ins2.ok ==> ins2.units == start + early + late && ins2.nextId == first + 10)
  {
    var early := Batch(gid, first, "EARLY", EarlyExpiry, clock1, 4);
    var late := Batch(gid, first + 4, "LATE", LateExpiry, clock2, 6);
    BatchOutcome(start, gid, first, "EARLY", EarlyExpiry, clock1, 4);
    forall i | 0 <= i < 6
      ensures InventoryImport.SkuTaken(start + early, BatchSku(i, "LATE")) <==> InventoryImport.SkuTaken(start, BatchSku(i, "LATE"))
    {
      LateNotEarly(start, early, i);
    }
    BatchOutcome(start + early, gid, first + 4, "LATE", LateExpiry, clock2, 6);
  }

  /** A batch of at most ten units goes in exactly when none of its SKUs is stored, and then whole. */
  lemma BatchOutcome(units: seq<InventoryUnit>, gid: Id, first: nat, tag: string, expiry: Time, clock: nat -> Time, n: nat)
    requires n <= 10
    ensures var ins := CsvImport.InsertMany(units, first, Batch(gid, first, tag, expiry, clock, n));
      (ins.ok <==> forall i :: 0 <= i < n ==> !InventoryImport.SkuTaken(units, BatchSku(i, tag)))
      && (ins.ok ==> ins.units == units + Batch(gid, first, tag, expiry, clock, n) && ins.nextId == first + n)
  {
    var b := Batch(gid, first, tag, expiry, clock, n);
    forall k, l | 0 <= k < l < n
      ensures b[k].sku != b[l].sku
    {
      assert b[k].sku[14] == DigitChar(k) && b[l].sku[14] == DigitChar(l);
    }
    if forall i :: 0 <= i < n ==> !InventoryImport.SkuTaken(units, BatchSku(i, tag)) {
      InsertFresh(units, first, b);
    } else {
      var i :| 0 <= i < n && InventoryImport.SkuTaken(units, BatchSku(i, tag));
      InsertTaken(units, first, b, i);
    }
  }

  /** A late SKU is never one of the early batch's, whose SKUs end in "EARLY". */
  lemma LateNotEarly(start: seq<InventoryUnit>, early: seq<InventoryUnit>, i: nat)
    requires forall k :: 0 <= k < |early| ==> exists j: nat :: early[k].sku == BatchSku(j, "EARLY")
    ensures InventoryImport.SkuTaken(start + early, BatchSku(i, "LATE")) <==> InventoryImport.SkuTaken(start, BatchSku(i, "LATE"))
  {
    var late := BatchSku(i, "LATE");
    forall k | 0 <= k < |early|
      ensures early[k].sku != late
    {
      var j: nat :| early[k].sku == BatchSku(j, "EARLY");
      assert early[k].sku[|early[k].sku| - 1] == 'Y';
      assert late[|late| - 1] == 'E';
    }
    var all := start + early;
    if InventoryImport.SkuTaken(all, late) {
      var k :| 0 <= k < |all| && all[k].sku == late;
      if k < |start| {
        assert start[k] == all[k];
      }
    }
    if InventoryImport.SkuTaken(start, late) {
      var k :| 0 <= k < |start| && start[k].sku == late;
      assert all[k] == start[k];
    }
  }

  /** An ordered insert of a batch with fresh, distinct SKUs and consecutive ids appends it whole. */
  lemma {:induction false} InsertFresh(units: seq<InventoryUnit>, nextId: nat, batch: seq<InventoryUnit>)
    requires forall k :: 0 <= k < |batch| ==> batch[k].id == nextId + k
    requires forall k :: 0 <= k < |batch| ==> !InventoryImport.SkuTaken(units, batch[k].sku)
    requires forall k, l :: 0 <= k < l < |batch| ==> batch[k].sku != batch[l].sku
    ensures CsvImport.InsertMany(units, nextId, batch) == CsvImport.InsertResult(units + batch, nextId + |batch|, true)
    decreases |batch|
  {
    if batch != [] {
      var units' := units + [batch[0]];
      assert batch[0].(id := nextId) == batch[0];
      forall k | 0 <= k < |batch[1..]|
        ensures !InventoryImport.SkuTaken(units', batch[1..][k].sku)
      {
        assert batch[1..][k] == batch[k + 1];
      }
      InsertFresh(units', nextId + 1, batch[1..]);
      assert units' + batch[1..] == units + batch;
    }
  }

  /** An ordered insert stops at a stored SKU: the batch does not go in whole. */
  lemma {:induction false} InsertTaken(units: seq<InventoryUnit>, nextId: nat, batch: seq<InventoryUnit>, j: nat)
    requires j < |batch| && InventoryImport.SkuTaken(units, batch[j].sku)
    ensures !CsvImport.InsertMany(units, nextId, batch).ok
    decreases |batch|
  {
    if !InventoryImport.SkuTaken(units, batch[0].sku) {
      var units' := units + [batch[0].(id := nextId)];
      var m :| 0 <= m < |units| && units[m].sku == batch[j].sku;
      assert units'[m] == units[m];
      assert batch[1..][j - 1] == batch[j];
      InsertTaken(units', nextId + 1, batch[1..], j - 1);
    }
  }

  /**
   * The request this route creates is refused by the request schema: it
   * passes no `requestedQty` (only an unknown `quantity`) and the purpose
   * 'Stock Refill', which is neither RETAIL nor INHOUSE.
   */
  lemma ScriptedRequestRefused(gid: Id, id: Id, now: Time, createdBy: Option<Id>)
    ensures NewRequest(id, RequestInput(Some(gid), Some("Stock Refill"), None, None, None, None, createdBy), now).None?
  {
  }
}
