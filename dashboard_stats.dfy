/** `GET /api/dashboard/stats`: the dashboard counters and its alert lists. */
module DashboardStats {
  import opened Base
  import opened Ordering
  import opened Models
  import ConsumeFifo
  import Casting
  import Js
  import Products

  /**
   * The expiry window: `setDate(getDate() + 30)`, taken as 30 whole days of
   * 24 hours. The route adds 30 calendar days in local time, which is an hour
   * more or less when a daylight-saving change falls inside the window.
   */
  const WindowDays: int := 30

  datatype LowStockRow = LowStockRow(id: Id, productName: string, lowStockThreshold: real, stockCount: nat)

  datatype Stats = Stats(totalProducts: nat, lowStock: nat, expired: nat, pendingRequests: nat)

  /**
   * An expiring unit as the route returns it: `populate('productGroupId',
   * 'productName')` puts the group's id and name in place of the bare id, or
   * null when no group has that id (`productName` is then `None`).
   */
  datatype ExpiringRow = ExpiringRow(unit: InventoryUnit, productName: Option<string>)

  datatype Dashboard = Dashboard(stats: Stats, lowStockAlerts: seq<LowStockRow>, expiringSoon: seq<ExpiringRow>)

  function PendingCount(rs: seq<ProcurementRequest>): (n: nat)
    ensures n <= |rs|
    ensures n == 0 <==> forall i :: 0 <= i < |rs| ==> rs[i].status != PENDING
    decreases |rs|
  {
    if rs == [] then 0 else (if rs[0].status == PENDING then 1 else 0) + PendingCount(rs[1..])
  }

  predicate IsExpired(u: InventoryUnit, now: Time) {
    u.status == ACTIVE && u.expiryDate < now
  }

  function ExpiredCount(us: seq<InventoryUnit>, now: Time): (n: nat)
    ensures n <= |us|
    ensures n == 0 <==> forall i :: 0 <= i < |us| ==> !IsExpired(us[i], now)
    decreases |us|
  {
    if us == [] then 0 else (if IsExpired(us[0], now) then 1 else 0) + ExpiredCount(us[1..], now)
  }

  /**
   * `$lte: ['$stockCount', '$lowStockThreshold']`: BSON orders null below every
   * number, so a group whose threshold is null is never low stock.
   */
  predicate IsLow(g: ProductGroup, units: seq<InventoryUnit>) {
    g.lowStockThreshold.Some? && ConsumeFifo.StockCount(units, g.id) as real <= g.lowStockThreshold.value
  }

  /** The `$project` of a low-stock group. */
  function RowOf(g: ProductGroup, units: seq<InventoryUnit>): LowStockRow
    requires IsLow(g, units)
  {
    LowStockRow(g.id, g.productName, g.lowStockThreshold.value, ConsumeFifo.StockCount(units, g.id))
  }

  /** The `$lookup`/`$project`/`$match` pipeline: groups whose ACTIVE count is at most their threshold. */
  function LowStockRows(groups: seq<ProductGroup>, units: seq<InventoryUnit>): (r: seq<LowStockRow>)
    ensures |r| <= |groups|
    ensures forall k :: 0 <= k < |r| ==> r[k].stockCount as real <= r[k].lowStockThreshold
    ensures forall k :: 0 <= k < |r| ==> r[k].stockCount == ConsumeFifo.StockCount(units, r[k].id)
    ensures forall g :: g in groups && IsLow(g, units) ==> RowOf(g, units) in r
    ensures forall k :: 0 <= k < |r| ==> exists g :: g in groups && IsLow(g, units) && r[k] == RowOf(g, units)
    decreases |groups|
  {
    if groups == [] then []
    else
      var g := groups[0];
      (if IsLow(g, units) then [RowOf(g, units)] else []) + LowStockRows(groups[1..], units)
  }

  /**
   * The positions, from `from` on, of the groups the pipeline keeps, in
   * increasing order: an independent statement of which groups are low.
   */
  function LowPositions(groups: seq<ProductGroup>, units: seq<InventoryUnit>, from: nat): (r: seq<nat>)
    requires from <= |groups|
    ensures forall k :: 0 <= k < |r| ==> from <= r[k] < |groups| && IsLow(groups[r[k]], units)
    ensures forall k, l :: 0 <= k < l < |r| ==> r[k] < r[l]
    ensures forall j :: from <= j < |groups| && IsLow(groups[j], units) ==> j in r
    decreases |groups| - from
  {
    if from == |groups| then []
    else (if IsLow(groups[from], units) then [from] else []) + LowPositions(groups, units, from + 1)
  }

  /** `rows` are the projections of the groups at `pos`, one per position. */
  predicate RowsAt(rows: seq<LowStockRow>, pos: seq<nat>, groups: seq<ProductGroup>, units: seq<InventoryUnit>) {
    |rows| == |pos|
    && forall k :: 0 <= k < |pos| ==>
      pos[k] < |groups| && IsLow(groups[pos[k]], units) && rows[k] == RowOf(groups[pos[k]], units)
  }

  /**
   * The rows are the low groups' projections, one per position, in the
   * collection's order; so the low-stock counter is the number of low groups.
   */
  lemma {:induction false} LowStockRowsExact(groups: seq<ProductGroup>, units: seq<InventoryUnit>, from: nat)
    requires from <= |groups|
    ensures RowsAt(LowStockRows(groups[from..], units), LowPositions(groups, units, from), groups, units)
    decreases |groups| - from
  {
    if from < |groups| {
      LowStockRowsExact(groups, units, from + 1);
      RowsUnfold(groups, units, from);
      var rest, restP := LowStockRows(groups[from + 1..], units), LowPositions(groups, units, from + 1);
      if IsLow(groups[from], units) {
        assert LowPositions(groups, units, from) == [from] + restP;
        RowsAtCons(rest, restP, groups, units, from);
      } else {
        assert LowPositions(groups, units, from) == restP;
      }
    }
  }

  /** Prepending a low group and its position keeps the match. */
  lemma RowsAtCons(rows: seq<LowStockRow>, pos: seq<nat>, groups: seq<ProductGroup>, units: seq<InventoryUnit>, j: nat)
    requires RowsAt(rows, pos, groups, units)
    requires j < |groups| && IsLow(groups[j], units)
    ensures RowsAt([RowOf(groups[j], units)] + rows, [j] + pos, groups, units)
  {
    var rows', pos' := [RowOf(groups[j], units)] + rows, [j] + pos;
    forall k | 0 <= k < |pos'|
      ensures pos'[k] < |groups| && IsLow(groups[pos'[k]], units) && rows'[k] == RowOf(groups[pos'[k]], units)
    {
      if k > 0 {
        assert rows'[k] == rows[k - 1] && pos'[k] == pos[k - 1];
      }
    }
  }

  /** The first step of the pipeline over `groups[from..]`. */
  lemma RowsUnfold(groups: seq<ProductGroup>, units: seq<InventoryUnit>, from: nat)
    requires from < |groups|
    ensures LowStockRows(groups[from..], units)
      == (if IsLow(groups[from], units) then [RowOf(groups[from], units)] else []) + LowStockRows(groups[from + 1..], units)
  {
    assert groups[from..][1..] == groups[from + 1..];
    assert groups[from..][0] == groups[from];
  }

  predicate ExpiringSoon(u: InventoryUnit, now: Time) {
    u.status == ACTIVE && now <= u.expiryDate <= now + WindowDays * DayMs
  }

  function ExpiringOf(us: seq<InventoryUnit>, now: Time): (r: seq<InventoryUnit>)
    ensures forall u :: u in r <==> u in us && ExpiringSoon(u, now)
    decreases |us|
  {
    if us == [] then []
    else (if ExpiringSoon(us[0], now) then [us[0]] else []) + ExpiringOf(us[1..], now)
  }

  function ByExpiry(u: InventoryUnit): Key {
    (u.expiryDate, 0)
  }

  /** The units behind the populated rows, in order. */
  function UnitsOf(rows: seq<ExpiringRow>): (r: seq<InventoryUnit>)
    ensures |r| == |rows| && forall k :: 0 <= k < |rows| ==> r[k] == rows[k].unit
  {
    seq(|rows|, k requires 0 <= k < |rows| => rows[k].unit)
  }

  /** `.populate('productGroupId', 'productName')` over the listed units. */
  function PopulateNames(us: seq<InventoryUnit>, groups: seq<ProductGroup>): (r: seq<ExpiringRow>)
    ensures UnitsOf(r) == us
    ensures forall k :: 0 <= k < |r| ==>
      (r[k].productName.None? <==> forall i :: 0 <= i < |groups| ==> groups[i].id != us[k].productGroupId)
    ensures forall k :: 0 <= k < |r| && r[k].productName.Some? ==>
      exists g :: g in groups && g.id == us[k].productGroupId && g.productName == r[k].productName.value
  {
    var r := seq(|us|, k requires 0 <= k < |us| =>
      var g := GroupById(groups, us[k].productGroupId);
      ExpiringRow(us[k], if g.Some? then Some(g.value.productName) else None));
    assert UnitsOf(r) == us;
    r
  }

  /** The route: 401 without a session, else the four counters and the two alert lists. */
  function Get(groups: seq<ProductGroup>, units: seq<InventoryUnit>, requests: seq<ProcurementRequest>,
               session: Option<Session>, now: Time): (r: Http<Dashboard>)
    ensures r.Err? <==> session.None?
    ensures r.Err? ==> r.status == 401
    ensures r.Ok? ==>
      r.status == 200 && r.value.stats.totalProducts == |groups| && r.value.stats.lowStock <= |groups|
      && r.value.stats.expired <= |units| && r.value.stats.pendingRequests <= |requests|
    ensures r.Ok? ==> |r.value.lowStockAlerts| <= 5 && |r.value.expiringSoon| <= 10
  {
    if session.None? then Err(401, "Unauthorized")
    else
      var low := LowStockRows(groups, units);
      Ok(200, Dashboard(
        Stats(|groups|, |low|, ExpiredCount(units, now), PendingCount(requests)),
        Take(low, 5),
        PopulateNames(Take(SortByKey(ExpiringOf(units, now), ByExpiry), 10), groups)))
  }

  lemma NoSessionUnauthorized(groups: seq<ProductGroup>, units: seq<InventoryUnit>, requests: seq<ProcurementRequest>, now: Time)
    ensures Get(groups, units, requests, None, now) == Err(401, "Unauthorized")
  {
  }

  /**
   * The counter counts every low-stock group, the alert list only the first
   * five of them; the expiring list holds the ten soonest-expiring units of
   * the window (all of them when there are fewer), soonest first, each with
   * its group's name.
   */
  lemma DashboardShape(groups: seq<ProductGroup>, units: seq<InventoryUnit>, requests: seq<ProcurementRequest>,
                       s: Session, now: Time)
    ensures Get(groups, units, requests, Some(s), now).value.stats.lowStock == |LowPositions(groups, units, 0)|
    ensures Get(groups, units, requests, Some(s), now).value.stats.totalProducts == |groups|
    ensures Get(groups, units, requests, Some(s), now).value.lowStockAlerts <= LowStockRows(groups, units)
    ensures var n := |LowStockRows(groups, units)|;
      |Get(groups, units, requests, Some(s), now).value.lowStockAlerts| == if n < 5 then n else 5
    ensures var n := |ExpiringOf(units, now)|;
      |Get(groups, units, requests, Some(s), now).value.expiringSoon| == if n < 10 then n else 10
    ensures SortedBy(UnitsOf(Get(groups, units, requests, Some(s), now).value.expiringSoon), ByExpiry)
    ensures forall u :: u in UnitsOf(Get(groups, units, requests, Some(s), now).value.expiringSoon) ==>
      u in units && ExpiringSoon(u, now)
    ensures var soon := UnitsOf(Get(groups, units, requests, Some(s), now).value.expiringSoon);
      forall u, v :: u in ExpiringOf(units, now) && u !in soon && v in soon ==> v.expiryDate <= u.expiryDate
    ensures var rows := Get(groups, units, requests, Some(s), now).value.expiringSoon;
      forall k :: 0 <= k < |rows| && rows[k].productName.Some? ==>
        exists g :: g in groups && g.id == rows[k].unit.productGroupId && g.productName == rows[k].productName.value
  {
    LowStockRowsExact(groups, units, 0);
    assert groups[0..] == groups;
    var e := ExpiringOf(units, now);
    var sorted := SortByKey(e, ByExpiry);
    var soon := Take(sorted, 10);
    forall u | u in soon
      ensures u in units && ExpiringSoon(u, now)
    {
      SortedMembership(e, ByExpiry, u);
    }
    TakeIsSmallest(sorted, ByExpiry, 10);
    forall u, v | u in e && u !in soon && v in soon
      ensures v.expiryDate <= u.expiryDate
    {
      SortedMembership(e, ByExpiry, u);
      var j :| 0 <= j < |sorted| && sorted[j] == u;
      var i :| 0 <= i < |soon| && soon[i] == v;
      assert soon == sorted[..|soon|];
      assert j >= |soon|;
      assert KeyLe(ByExpiry(soon[i]), ByExpiry(sorted[j]));
    }
  }

  /** A group with no ACTIVE units counts as low stock whenever its threshold is set and not negative. */
  lemma EmptyGroupIsLow(groups: seq<ProductGroup>, units: seq<InventoryUnit>, g: ProductGroup)
    requires g in groups && ConsumeFifo.StockCount(units, g.id) == 0
    requires g.lowStockThreshold.Some? && g.lowStockThreshold.value >= 0.0
    ensures LowStockRow(g.id, g.productName, g.lowStockThreshold.value, 0) in LowStockRows(groups, units)
  {
  }

  /**
   * A group created from a body whose lowStockThreshold is '' (a cleared form
   * field) stores null, and so is never low stock, whatever its stock.
   */
  lemma ClearedThresholdNeverLow(id: Id, body: map<string, Js.Val>, now: Time, units: seq<InventoryUnit>)
    requires Products.BuildGroup(id, body, now).Some?
    requires Casting.Field(body, "lowStockThreshold") == Js.Str("")
    ensures !IsLow(Products.BuildGroup(id, body, now).value, units)
  {
  }

  /** The windows are disjoint: a unit counted as expired is never expiring soon. */
  lemma ExpiredNotExpiringSoon(u: InventoryUnit, now: Time)
    ensures !(IsExpired(u, now) && ExpiringSoon(u, now))
  {
  }

  /** A unit already marked EXPIRED is counted in neither. */
  lemma MarkedExpiredCountsNowhere(us: seq<InventoryUnit>, now: Time)
    requires forall i :: 0 <= i < |us| ==> us[i].status == EXPIRED
    ensures ExpiredCount(us, now) == 0 && ExpiringOf(us, now) == []
  {
    if ExpiringOf(us, now) != [] {
      assert ExpiringOf(us, now)[0] in ExpiringOf(us, now);
    }
  }
}
