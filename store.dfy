/** The document database as one in-memory store of collections. */
module Db {
  import opened Base
  import opened Models

  class Store {
    var groups: seq<ProductGroup>
    var units: seq<InventoryUnit>
    var requests: seq<ProcurementRequest>
    var supplierInvoices: seq<SupplierInvoice>
    var sales: seq<SalesInvoice>
    var users: seq<User>
    /** The settings singleton, absent until it is first created. */
    var settings: Option<Settings>
    /** The next fresh document id. */
    var nextId: nat

    /**
     * The unique indexes of the schemas, ids that are all distinct and below
     * `nextId`, and FIFO mode switched on in the stored settings.
     */
    ghost predicate Valid()
      reads this
    {
      Distinct(groups, GroupId) && Distinct(groups, KeyOf)
      && Distinct(units, UnitId) && Distinct(units, Sku)
      && Distinct(requests, RequestId)
      && Distinct(supplierInvoices, SupplierInvoiceId)
      && Distinct(sales, SalesId) && Distinct(sales, InvoiceNumber)
      && Distinct(users, UserId) && Distinct(users, Email)
      && (forall i :: 0 <= i < |groups| ==> groups[i].id < nextId)
      && (forall i :: 0 <= i < |units| ==> units[i].id < nextId)
      && (forall i :: 0 <= i < |requests| ==> requests[i].id < nextId)
      && (forall i :: 0 <= i < |supplierInvoices| ==> supplierInvoices[i].id < nextId)
      && (forall i :: 0 <= i < |sales| ==> sales[i].id < nextId)
      && (forall i :: 0 <= i < |users| ==> users[i].id < nextId)
      && (settings.Some? ==> settings.value.inventory.fifoMode)
    }

    constructor ()
      ensures Valid()
      ensures groups == [] && units == [] && requests == [] && supplierInvoices == []
      ensures sales == [] && users == [] && settings == None && nextId == 0
    {
      groups, units, requests, supplierInvoices := [], [], [], [];
      sales, users, settings, nextId := [], [], None, 0;
    }

    /** Writes the settings singleton, which must keep FIFO mode on. */
    method SetSettings(s: Option<Settings>)
      requires Valid() && (s.Some? ==> s.value.inventory.fifoMode)
      modifies this
      ensures Valid() && settings == s
      ensures groups == old(groups) && units == old(units) && requests == old(requests)
      ensures supplierInvoices == old(supplierInvoices) && sales == old(sales)
      ensures users == old(users) && nextId == old(nextId)
    {
      settings := s;
    }
  }
}
