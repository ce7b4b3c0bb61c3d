/**
 * The unit audit page: the list it shows and `markStatus`, which asks the
 * server to change one unit's status and then patches the local list.
 */
module Audit {
  import opened Models

  /** The server's reply as the page sees it: its `ok` flag and its `message`. */
  datatype Reply = Reply(ok: bool, message: string)

  /** `prev.map(u => u._id === id ? {...u, status} : u)` */
  function WithStatus(units: seq<InventoryUnit>, id: Id, status: UnitStatus): (r: seq<InventoryUnit>)
    ensures |r| == |units|
    ensures forall k :: 0 <= k < |units| && units[k].id == id ==> r[k] == units[k].(status := status)
    ensures forall k :: 0 <= k < |units| && units[k].id != id ==> r[k] == units[k]
  {
    seq(|units|, k requires 0 <= k < |units| => if units[k].id == id then units[k].(status := status) else units[k])
  }

  class AuditPage {
    var units: seq<InventoryUnit>
    var error: string

    constructor ()
      ensures units == [] && error == ""
    {
      units, error := [], "";
    }

    /** Marks unit `id` with `status`, given the server's reply to the status change. */
    method MarkStatus(id: Id, status: UnitStatus, reply: Reply)
      modifies this
      ensures reply.ok ==> units == WithStatus(old(units), id, status) && error == old(error)
      ensures !reply.ok ==> units == old(units)
      ensures !reply.ok ==> error == if reply.message != "" then reply.message else "Failed to update status"
    {
      if !reply.ok {
        error := if reply.message != "" then reply.message else "Failed to update status";
        return;
      }
      units := WithStatus(units, id, status);
    }
  }

  /**
   * The patch changes the status of the units with that id and nothing else:
   * the length, the order, the other units and the other fields all stay.
   */
  lemma OnlyStatusChanges(units: seq<InventoryUnit>, id: Id, status: UnitStatus, k: nat)
    requires k < |units|
    ensures WithStatus(units, id, status)[k].id == units[k].id
    ensures WithStatus(units, id, status)[k].sku == units[k].sku
    ensures WithStatus(units, id, status)[k].(status := units[k].status) == units[k]
    ensures units[k].id == id ==> WithStatus(units, id, status)[k].status == status
  {
  }

  /** No transition check: every status can be set from every status, and a repeat changes nothing more. */
  lemma AnyTransitionAllowed(units: seq<InventoryUnit>, id: Id, s1: UnitStatus, s2: UnitStatus)
    ensures WithStatus(WithStatus(units, id, s1), id, s2) == WithStatus(units, id, s2)
  {
  }
}
