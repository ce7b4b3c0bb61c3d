/**
 * `/api/products`: GET lists every product group with its stock level and
 * earliest expiry; POST creates one group, relying on the schema's required
 * validators and the compound unique index.
 */
module Products {
  import opened Base
  import opened Js
  import opened Ordering
  import opened Models
  import opened Casting
  import opened Db
  import ConsumeFifo

  /** A row of the listing: the group with its ACTIVE count and earliest ACTIVE expiry. */
  datatype GroupSummary = GroupSummary(group: ProductGroup, totalStock: nat, earliestExpiry: Option<Time>)

  /** `$min` of the expiry dates of a list; null for an empty list. */
  function MinExpiry(us: seq<InventoryUnit>): (m: Option<Time>)
    ensures m.None? <==> us == []
    ensures m.Some? ==> exists i :: 0 <= i < |us| && us[i].expiryDate == m.value
    ensures m.Some? ==> forall i :: 0 <= i < |us| ==> m.value <= us[i].expiryDate
    decreases |us|
  {
    if us == [] then None
    else
      match MinExpiry(us[1..])
      case None => Some(us[0].expiryDate)
      case Some(rest) => Some(if us[0].expiryDate <= rest then us[0].expiryDate else rest)
  }

  /** Newest first: `sort({createdAt: -1})`. */
  function NewestFirst(g: GroupSummary): Key {
    (-g.group.createdAt, 0)
  }

  function Summarize(groups: seq<ProductGroup>, units: seq<InventoryUnit>): (r: seq<GroupSummary>)
    ensures |r| == |groups|
    ensures forall i :: 0 <= i < |groups| ==> r[i].group == groups[i]
    ensures forall i :: 0 <= i < |groups| ==> r[i].totalStock == ConsumeFifo.StockCount(units, groups[i].id)
    ensures forall i :: 0 <= i < |groups| ==>
      r[i].earliestExpiry == MinExpiry(ConsumeFifo.ActiveOf(units, groups[i].id))
  {
    seq(|groups|, i requires 0 <= i < |groups| =>
      var active := ConsumeFifo.ActiveOf(units, groups[i].id);
      GroupSummary(groups[i], |active|, MinExpiry(active)))
  }

  /** GET: the left join of groups with their ACTIVE units, newest group first. */
  function List(groups: seq<ProductGroup>, units: seq<InventoryUnit>): seq<GroupSummary> {
    SortByKey(Summarize(groups, units), NewestFirst)
  }

  /**
   * Every group appears exactly once, with its ACTIVE count, and the listing is
   * newest first.
   */
  lemma ListingProperties(groups: seq<ProductGroup>, units: seq<InventoryUnit>)
    ensures |List(groups, units)| == |groups|
    ensures forall i :: 0 <= i < |groups| ==>
      exists j :: 0 <= j < |List(groups, units)| && List(groups, units)[j].group == groups[i]
    ensures forall j :: 0 <= j < |List(groups, units)| ==>
      List(groups, units)[j].totalStock == ConsumeFifo.StockCount(units, List(groups, units)[j].group.id)
    ensures forall i, j :: 0 <= i < j < |List(groups, units)| ==>
      List(groups, units)[i].group.createdAt >= List(groups, units)[j].group.createdAt
  {
    var s := Summarize(groups, units);
    var l := List(groups, units);
    forall i | 0 <= i < |groups|
      ensures exists j :: 0 <= j < |l| && l[j].group == groups[i]
    {
      SortedMembership(s, NewestFirst, s[i]);
    }
    forall j | 0 <= j < |l|
      ensures l[j].totalStock == ConsumeFifo.StockCount(units, l[j].group.id)
    {
      SortedMembership(s, NewestFirst, l[j]);
    }
  }

  /** A group with no ACTIVE unit is listed with stock 0 and no earliest expiry. */
  lemma EmptyGroupListed(groups: seq<ProductGroup>, units: seq<InventoryUnit>, i: nat)
    requires i < |groups| && ConsumeFifo.StockCount(units, groups[i].id) == 0
    ensures GroupSummary(groups[i], 0, None) in List(groups, units)
  {
    var s := Summarize(groups, units);
    assert s[i] == GroupSummary(groups[i], 0, None);
    SortedMembership(s, NewestFirst, s[i]);
  }

  // --------------------------------------------------------------------- POST

  const DuplicateGroupMessage: string := "Product Group already exists"

  /** The message of a failed validation (its exact text is not modelled). */
  const ValidationMessage: string := "ProductGroup validation failed"

  /**
   * `new ProductGroup(body)` after casting and validation; `None` if validation
   * fails. The schema default of the threshold applies only to an absent field:
   * null and '' are stored as null.
   */
  function BuildGroup(id: Id, body: map<string, Val>, now: Time): (r: Option<ProductGroup>)
    ensures r.Some? <==>
      RequiredString(CastString(Field(body, "brandName")))
      && RequiredString(CastString(Field(body, "subCategory")))
      && RequiredString(CastString(Field(body, "productName")))
      && CastNumber(Field(body, "quantityPerItem")).Value?
      && RequiredString(CastString(Field(body, "unit"))) && ValidMeasure(CastString(Field(body, "unit")).v)
      && CastNumber(Field(body, "sellingPrice")).Value?
      && !CastNumber(Field(body, "lowStockThreshold")).CastFailure?
    ensures r.Some? ==>
      r.value.brandName == CastString(Field(body, "brandName")).v
      && r.value.subCategory == CastString(Field(body, "subCategory")).v
      && r.value.productName == CastString(Field(body, "productName")).v
      && r.value.quantityPerItem == CastNumber(Field(body, "quantityPerItem")).v
      && r.value.measure == CastString(Field(body, "unit")).v
      && r.value.sellingPrice == CastNumber(Field(body, "sellingPrice")).v
      && r.value.createdAt == now
    ensures r.Some? ==> ValidMeasure(r.value.measure) && r.value.id == id
    ensures r.Some? ==> r.value.brandName != "" && r.value.subCategory != "" && r.value.productName != ""
    ensures r.Some? && Field(body, "lowStockThreshold").Undefined? ==>
      r.value.lowStockThreshold == Some(DefaultLowStockThreshold)
    ensures r.Some? && Field(body, "lowStockThreshold") in {Null, Str("")} ==> r.value.lowStockThreshold.None?
    ensures r.Some? && Field(body, "lowStockThreshold").Num? ==>
      r.value.lowStockThreshold == Some(Field(body, "lowStockThreshold").n)
  {
    var brand := CastString(Field(body, "brandName"));
    var sub := CastString(Field(body, "subCategory"));
    var name := CastString(Field(body, "productName"));
    var qty := CastNumber(Field(body, "quantityPerItem"));
    var measure := CastString(Field(body, "unit"));
    var price := CastNumber(Field(body, "sellingPrice"));
    var threshold := CastNumber(Field(body, "lowStockThreshold"));
    if RequiredString(brand) && RequiredString(sub) && RequiredString(name) && qty.Value?
      && RequiredString(measure) && ValidMeasure(measure.v) && price.Value? && !threshold.CastFailure?
    then
      Some(ProductGroup(id, brand.v, sub.v, name.v, qty.v, measure.v, price.v,
        if threshold.Value? then Some(threshold.v)
        else if Field(body, "lowStockThreshold").Undefined? then Some(DefaultLowStockThreshold)
        else None,
        now))
    else None
  }

  function KeyTaken(groups: seq<ProductGroup>, k: GroupKey): bool {
    exists i :: 0 <= i < |groups| && KeyOf(groups[i]) == k
  }

  /** POST as a function of the group collection. */
  function CreateOutcome(groups: seq<ProductGroup>, id: Id, body: map<string, Val>, now: Time)
    : (seq<ProductGroup>, Http<ProductGroup>)
  {
    match BuildGroup(id, body, now)
    case None => (groups, Err(500, ValidationMessage))
    case Some(g) =>
      if KeyTaken(groups, KeyOf(g)) then (groups, Err(400, DuplicateGroupMessage))
      else (groups + [g], Ok(201, g))
  }

  method Create(db: Store, body: map<string, Val>, now: Time) returns (reply: Http<ProductGroup>)
    requires db.Valid()
    modifies db
    ensures db.Valid()
    ensures (db.groups, reply) == CreateOutcome(old(db.groups), old(db.nextId), body, now)
    ensures db.nextId == old(db.nextId) + (if reply.Ok? then 1 else 0)
    ensures db.units == old(db.units) && db.requests == old(db.requests) && db.users == old(db.users)
    ensures db.sales == old(db.sales) && db.supplierInvoices == old(db.supplierInvoices)
    ensures db.settings == old(db.settings)
  {
    var built := BuildGroup(db.nextId, body, now);
    if built.None? {
      return Err(500, ValidationMessage);
    }
    var g := built.value;
    if KeyTaken(db.groups, KeyOf(g)) {
      return Err(400, DuplicateGroupMessage);
    }
    DistinctAppend(db.groups, GroupId, g);
    DistinctAppend(db.groups, KeyOf, g);
    db.groups := db.groups + [g];
    db.nextId := db.nextId + 1;
    reply := Ok(201, g);
  }

  /** A create never breaks the unique index: the new collection has distinct keys. */
  lemma CreateKeepsKeysUnique(groups: seq<ProductGroup>, id: Id, body: map<string, Val>, now: Time)
    requires Distinct(groups, KeyOf)
    ensures Distinct(CreateOutcome(groups, id, body, now).0, KeyOf)
  {
    var r := CreateOutcome(groups, id, body, now);
    if r.1.Ok? {
      DistinctAppend(groups, KeyOf, r.1.value);
    }
  }

  /** An identity tuple already present is a 400 and adds no group. */
  lemma DuplicateRejected(groups: seq<ProductGroup>, id: Id, body: map<string, Val>, now: Time, i: nat)
    requires BuildGroup(id, body, now).Some?
    requires i < |groups| && KeyOf(groups[i]) == KeyOf(BuildGroup(id, body, now).value)
    ensures CreateOutcome(groups, id, body, now) == (groups, Err(400, DuplicateGroupMessage))
  {
  }

  /** A new identity tuple adds exactly that group, at the end, with status 201. */
  lemma FreshKeyCreated(groups: seq<ProductGroup>, id: Id, body: map<string, Val>, now: Time)
    requires BuildGroup(id, body, now).Some?
    requires forall i :: 0 <= i < |groups| ==> KeyOf(groups[i]) != KeyOf(BuildGroup(id, body, now).value)
    ensures CreateOutcome(groups, id, body, now).0 == groups + [BuildGroup(id, body, now).value]
    ensures CreateOutcome(groups, id, body, now).1.status == 201
  {
  }

  /** A unit of measure outside ml, g and piece fails validation. */
  lemma BadMeasureRejected(id: Id, body: map<string, Val>, now: Time)
    requires Field(body, "unit").Str? && !ValidMeasure(Field(body, "unit").s)
    ensures BuildGroup(id, body, now).None?
  {
  }

  /** An empty brand, sub-category or product name fails the required validator. */
  lemma EmptyNameRejected(id: Id, body: map<string, Val>, now: Time)
    requires Field(body, "brandName") == Str("") || Field(body, "subCategory") == Str("")
      || Field(body, "productName") == Str("")
    ensures BuildGroup(id, body, now).None?
  {
  }
}
