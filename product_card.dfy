/** The product card of the inventory list: its stock badge, expansion and per-unit consume. */
module ProductCard {
  import opened Base
  import opened Models

  datatype StockStatus = OutOfStock | LowStock | InStock

  function Label(s: StockStatus): string {
    match s
    case OutOfStock => "Out of Stock"
    case LowStock => "Low Stock"
    case InStock => "In Stock"
  }

  /**
   * `getStockStatus(count, threshold)`. The card passes the group's stored
   * `lowStockThreshold`, which is null (`None`) when it was cleared; JavaScript
   * compares `count <= null` as `count <= 0`.
   */
  function GetStockStatus(count: real, threshold: Option<real>): (s: StockStatus)
    ensures s == OutOfStock <==> count == 0.0
    ensures threshold.Some? ==> (s == LowStock <==> count != 0.0 && count <= threshold.value)
    ensures threshold.Some? ==> (s == InStock <==> count != 0.0 && count > threshold.value)
    ensures threshold.None? ==> (s == LowStock <==> count != 0.0 && count <= 0.0)
    ensures threshold.None? ==> (s == InStock <==> count > 0.0)
  {
    var limit := if threshold.Some? then threshold.value else 0.0;
    if count == 0.0 then OutOfStock else if count <= limit then LowStock else InStock
  }

  /** The three labels are distinct, so the classifier names exactly one state. */
  lemma LabelsDistinct(a: StockStatus, b: StockStatus)
    ensures Label(a) == Label(b) <==> a == b
  {
  }

  const ManualReason: string := "MANUAL_CONSUMPTION"

  class Card {
    var isExpanded: bool
    var units: seq<InventoryUnit>

    constructor ()
      ensures !isExpanded && units == []
    {
      isExpanded, units := false, [];
    }

    /**
     * Toggles the card. Units are fetched only when the card opens with none
     * loaded; `fetched` is what that fetch returns (`None` when it fails,
     * leaving the list as it was).
     */
    method ToggleExpand(fetched: Option<seq<InventoryUnit>>) returns (didFetch: bool)
      modifies this
      ensures isExpanded == !old(isExpanded)
      ensures didFetch <==> !old(isExpanded) && old(units) == []
      ensures didFetch && fetched.Some? ==> units == fetched.value
      ensures !(didFetch && fetched.Some?) ==> units == old(units)
    {
      var wasExpanded := isExpanded;
      isExpanded := !isExpanded;
      didFetch := !wasExpanded && |units| == 0;
      if didFetch && fetched.Some? {
        units := fetched.value;
      }
    }

    /**
     * Consumes one unit after the user confirms: the request carries reason
     * MANUAL_CONSUMPTION; the list is then refreshed with `refreshed`.
     */
    method HandleConsume(unitId: Id, confirmed: bool, refreshed: Option<seq<InventoryUnit>>)
      returns (sent: Option<(Id, string)>)
      modifies this
      ensures sent.Some? <==> confirmed
      ensures confirmed ==> sent == Some((unitId, ManualReason))
      ensures confirmed && refreshed.Some? ==> units == refreshed.value
      ensures !(confirmed && refreshed.Some?) ==> units == old(units)
      ensures isExpanded == old(isExpanded)
    {
      if !confirmed {
        return None;
      }
      sent := Some((unitId, ManualReason));
      if refreshed.Some? {
        units := refreshed.value;
      }
    }
  }
}
