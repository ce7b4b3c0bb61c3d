/** `GET /api/inventory/units`: every unit, in FIFO order, for signed-in callers. */
module UnitsRoute {
  import opened Base
  import opened Ordering
  import opened Models
  import ConsumeFifo

  function List(units: seq<InventoryUnit>, session: Option<Session>): (r: Http<seq<InventoryUnit>>)
    ensures session.None? <==> r == Err(401, "Unauthorized")
    ensures r.Ok? ==> r.status == 200
    ensures r.Ok? ==> multiset(r.value) == multiset(units)
    ensures r.Ok? ==> SortedBy(r.value, ConsumeFifo.FifoKey)
  {
    if session.None? then Err(401, "Unauthorized")
    else Ok(200, SortByKey(units, ConsumeFifo.FifoKey))
  }

  /** No status filter: units of every status are listed. */
  lemma EveryStatusListed(units: seq<InventoryUnit>, s: Session, u: InventoryUnit)
    requires u in units
    ensures u in List(units, Some(s)).value
  {
    SortedMembership(units, ConsumeFifo.FifoKey, u);
  }
}
