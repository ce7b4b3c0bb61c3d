/**
 * `POST /api/inventory/import`: rows of an uploaded stock sheet, processed in
 * order. Each row finds or creates its product group and then creates one
 * inventory unit; a failing row is reported and the loop goes on.
 */
module InventoryImport {
  import opened Base
  import opened Js
  import opened Models
  import opened Casting
  import opened Db

  /** A sheet row: a JSON object keyed by column name. */
  type Item = map<string, Val>

  /** The request body: `items` is `None` when it is not an array. */
  datatype ImportBody = ImportBody(items: Option<seq<Item>>)

  /** The reply: how many rows created a unit, and the row errors (omitted when there are none). */
  datatype Summary = Summary(importedCount: nat, errors: Option<seq<string>>)

  /** The collections the loop writes, with its two accumulators. */
  datatype State = State(
    groups: seq<ProductGroup>, units: seq<InventoryUnit>, nextId: nat,
    imported: nat, errors: seq<string>)

  /** `item.Pascal || item.camel` */
  function Pick(item: Item, pascal: string, camel: string): Val {
    Or(Field(item, pascal), Field(item, camel))
  }

  function RowError(index: nat, what: string): string {
    "Row " + NatToString(index + 1) + ": " + what
  }

  const MissingFields: string :=
    "Missing required product fields (Brand, SubCategory, ProductName, QtyPerItem, Unit, SellingPrice)"
  const MissingCost: string := "Missing CostPrice"
  const MissingExpiry: string := "Missing ExpiryDate"
  const InvalidExpiry: string := "Invalid ExpiryDate format (Use YYYY-MM-DD)"
  /** V8's TypeError when the variable `name` holds a value that is not a string and has no `substring`. */
  function NotAString(name: string): string {
    name + ".substring is not a function"
  }
  /** The messages of a failed unit validation and of a duplicate SKU (their exact text is not modelled). */
  const UnitValidationMessage: string := "InventoryUnit validation failed"
  const DuplicateKeyMessage: string := "E11000 duplicate key error"

  /**
   * `${brand.substring(0,2)}${product.substring(0,2)}`.replace(/\s/g, '').toUpperCase() + '-' + suffix:
   * a prefix of at most four characters, none of them whitespace or a
   * lower-case letter, then '-' and the suffix.
   */
  function GeneratedSku(brand: string, product: string, suffix: string): (sku: string)
    ensures var n := |sku| - |suffix| - 1;
      0 <= n <= 4 && sku[n..] == "-" + suffix
      && (forall i :: 0 <= i < n ==> !('a' <= sku[i] <= 'z') && !IsSpace(sku[i]))
  {
    var raw := Prefix(brand, 2) + Prefix(product, 2);
    RemoveSpacesShorter(raw);
    var p := ToUpper(RemoveSpaces(raw));
    assert (p + "-" + suffix)[|p|..] == "-" + suffix;
    p + "-" + suffix
  }

  predicate SkuTaken(units: seq<InventoryUnit>, sku: string) {
    exists k :: 0 <= k < |units| && units[k].sku == sku
  }

  /** The group with key `k`, if there is one. */
  function FindGroup(groups: seq<ProductGroup>, k: GroupKey): (r: Option<nat>)
    ensures r.Some? ==> r.value < |groups| && KeyOf(groups[r.value]) == k
    ensures r.None? ==> forall i :: 0 <= i < |groups| ==> KeyOf(groups[i]) != k
    decreases |groups|
  {
    if groups == [] then None
    else if KeyOf(groups[0]) == k then Some(0)
    else match FindGroup(groups[1..], k)
      case Some(i) => Some(i + 1)
      case None => None
  }

  /**
   * `findOneAndUpdate(key, {$setOnInsert: ...}, {upsert: true})`: the existing
   * group, or a new one with the threshold, appended.
   */
  function Upsert(groups: seq<ProductGroup>, nextId: nat, k: GroupKey, threshold: real, now: Time)
    : (r: (seq<ProductGroup>, ProductGroup, nat))
    ensures KeyOf(r.1) == k && r.1 in r.0
    ensures FindGroup(groups, k).Some? ==> r.0 == groups && r.2 == nextId
    ensures FindGroup(groups, k).None? ==> r.0 == groups + [r.1] && r.1.id == nextId && r.2 == nextId + 1
    ensures FindGroup(groups, k).None? ==> r.1.lowStockThreshold == Some(threshold)
  {
    match FindGroup(groups, k)
    case Some(i) => (groups, groups[i], nextId)
    case None =>
      var g := ProductGroup(nextId, k.brandName, k.subCategory, k.productName, k.quantityPerItem,
        k.measure, k.sellingPrice, Some(threshold), now);
      (groups + [g], g, nextId + 1)
  }

  /** The identity fields of a row, or `None` when one of them is falsy. */
  function RowKey(item: Item): Option<GroupKey> {
    var brand := Pick(item, "Brand", "brandName");
    var sub := Pick(item, "SubCategory", "subCategory");
    var name := Pick(item, "ProductName", "productName");
    var qty := ToNumber(Pick(item, "QtyPerItem", "quantityPerItem"));
    var measure := Pick(item, "Unit", "unit");
    var price := ToNumber(Pick(item, "SellingPrice", "sellingPrice"));
    if !Truthy(brand) || !Truthy(sub) || !Truthy(name) || !NumTruthy(qty) || !Truthy(measure) || !NumTruthy(price)
    then None
    else Some(GroupKey(ValToString(brand), ValToString(sub), ValToString(name), qty.r, ValToString(measure), price.r))
  }

  /** `Number(item.LowStockThreshold || item.lowStockThreshold) || 10` */
  function Threshold(item: Item): real {
    var t := ToNumber(Pick(item, "LowStockThreshold", "lowStockThreshold"));
    if NumTruthy(t) then t.r else DefaultLowStockThreshold
  }

  /** The SKU a row will use: its own, or a generated one, or the error that stops it. */
  function RowSku(item: Item, units: seq<InventoryUnit>, suffix: string): SkuChoice
  {
    var sku := Pick(item, "SKU", "sku");
    if !Truthy(sku) then
      var brand := Pick(item, "Brand", "brandName");
      var name := Pick(item, "ProductName", "productName");
      if !brand.Str? then NotText("brandName")
      else if !name.Str? then NotText("productName")
      else Good(GeneratedSku(brand.s, name.s, suffix))
    else if SkuTaken(units, ValToString(sku)) then Taken(ValToString(sku))
    else Good(ValToString(sku))
  }

  /**
   * `Taken` is the thrown `Row n: SKU ... already exists`; `NotText` the
   * TypeError of `substring` on a name that is not a string, whose message
   * carries no row number.
   */
  datatype SkuChoice = Good(value: string) | Taken(sku: string) | NotText(variable: string)

  /** The outcome of the unit part of a row: the unit to insert, or the row's error message. */
  datatype UnitOutcome = Created(unit: InventoryUnit) | Failed(message: string)

  /** Steps 3 and 4 of a row, once its group `gid` is known: validate, pick the SKU, build the unit. */
  function UnitFor(item: Item, index: nat, units: seq<InventoryUnit>, id: Id, gid: Id, now: Time,
                   parseDate: Val -> Option<Time>, suffix: string): (r: UnitOutcome)
    ensures r.Created? ==> r.unit.id == id && r.unit.productGroupId == gid && r.unit.status == ACTIVE
    ensures r.Created? ==> !SkuTaken(units, r.unit.sku)
  {
    var cost := ToNumber(Pick(item, "CostPrice", "costPrice"));
    var expiry := Pick(item, "ExpiryDate", "expiryDate");
    if !NumTruthy(cost) then Failed(RowError(index, MissingCost))
    else if !Truthy(expiry) then Failed(RowError(index, MissingExpiry))
    else if parseDate(expiry).None? then Failed(RowError(index, InvalidExpiry))
    else
      match RowSku(item, units, suffix)
      case Taken(t) => Failed(RowError(index, "SKU " + t + " already exists"))
      case NotText(v) => Failed(NotAString(v))
      case Good(sku) =>
        var stocked := if Truthy(Field(item, "StockedDate")) then parseDate(Field(item, "StockedDate")) else Some(now);
        if stocked.None? then Failed(UnitValidationMessage)
        else if SkuTaken(units, sku) then Failed(DuplicateKeyMessage)
        else Created(InventoryUnit(id, gid, sku, parseDate(expiry).value, stocked.value, cost.r, ACTIVE, None, None, now))
  }

  function Apply(st: State, o: UnitOutcome): (r: State)
    ensures o.Failed? ==> r == st.(errors := st.errors + [o.message])
    ensures o.Created? ==> r == st.(units := st.units + [o.unit], nextId := st.nextId + 1, imported := st.imported + 1)
  {
    match o
    case Failed(m) => st.(errors := st.errors + [m])
    case Created(u) => st.(units := st.units + [u], nextId := st.nextId + 1, imported := st.imported + 1)
  }

  /** One iteration of the loop: the state after row `index`. */
  function Row(st: State, item: Item, index: nat, now: Time, parseDate: Val -> Option<Time>, suffix: string): State {
    match RowKey(item)
    case None => st.(errors := st.errors + [RowError(index, MissingFields)])
    case Some(key) =>
      var (groups, group, nextId) := Upsert(st.groups, st.nextId, key, Threshold(item), now);
      Apply(st.(groups := groups, nextId := nextId),
            UnitFor(item, index, st.units, nextId, group.id, now, parseDate, suffix))
  }

  /** The state after the first `k` rows. */
  function RunRows(st: State, items: seq<Item>, k: nat, now: Time, parseDate: Val -> Option<Time>, suffix: nat -> string)
    : State
    requires k <= |items|
    decreases k
  {
    if k == 0 then st
    else Row(RunRows(st, items, k - 1, now, parseDate, suffix), items[k - 1], k - 1, now, parseDate, suffix(k - 1))
  }

  predicate MayImport(session: Option<Session>) {
    session.Some? && (session.value.role == "ADMIN" || session.value.role == "MANAGER")
  }

  function Start(groups: seq<ProductGroup>, units: seq<InventoryUnit>, nextId: nat): State {
    State(groups, units, nextId, 0, [])
  }

  function Finish(st: State): Summary {
    Summary(st.imported, if |st.errors| > 0 then Some(st.errors) else None)
  }

  /**
   * Imports the rows. `parseDate` is `new Date(v)` (None for an invalid date),
   * `suffix(i)` the random part of a generated SKU on row `i`.
   */
  method Post(db: Store, session: Option<Session>, body: ImportBody, now: Time,
              parseDate: Val -> Option<Time>, suffix: nat -> string) returns (reply: Http<Summary>)
    requires db.Valid()
    modifies db
    ensures db.Valid()
    ensures !MayImport(session) ==> reply == Err(401, "Unauthorized") && db.groups == old(db.groups) && db.units == old(db.units)
    ensures MayImport(session) && (body.items.None? || body.items.value == []) ==>
      reply == Err(400, "No items to import") && db.groups == old(db.groups) && db.units == old(db.units)
    ensures MayImport(session) && body.items.Some? && body.items.value != [] ==>
      var st := RunRows(Start(old(db.groups), old(db.units), old(db.nextId)), body.items.value,
                        |body.items.value|, now, parseDate, suffix);
      db.groups == st.groups && db.units == st.units && db.nextId == st.nextId && reply == Ok(200, Finish(st))
    ensures db.requests == old(db.requests) && db.users == old(db.users) && db.sales == old(db.sales)
    ensures db.supplierInvoices == old(db.supplierInvoices) && db.settings == old(db.settings)
  {
    if !MayImport(session) {
      return Err(401, "Unauthorized");
    }
    if body.items.None? || |body.items.value| == 0 {
      return Err(400, "No items to import");
    }
    var importedCount, errors := ImportRows(db, body.items.value, now, parseDate, suffix);
    reply := Ok(200, Summary(importedCount, if |errors| > 0 then Some(errors) else None));
  }

  /** The `for` loop over the rows, from counters at zero. */
  method ImportRows(db: Store, items: seq<Item>, now: Time, parseDate: Val -> Option<Time>, suffix: nat -> string)
    returns (importedCount: nat, errors: seq<string>)
    requires db.Valid()
    modifies db
    ensures db.Valid()
    ensures State(db.groups, db.units, db.nextId, importedCount, errors)
      == RunRows(Start(old(db.groups), old(db.units), old(db.nextId)), items, |items|, now, parseDate, suffix)
    ensures db.requests == old(db.requests) && db.users == old(db.users) && db.sales == old(db.sales)
    ensures db.supplierInvoices == old(db.supplierInvoices) && db.settings == old(db.settings)
  {
    ghost var st0 := Start(db.groups, db.units, db.nextId);
    importedCount, errors := 0, [];
    var i := 0;
    while i < |items|
      invariant 0 <= i <= |items|
      invariant db.Valid()
      invariant RunRows(st0, items, i, now, parseDate, suffix) == State(db.groups, db.units, db.nextId, importedCount, errors)
      invariant db.requests == old(db.requests) && db.users == old(db.users) && db.sales == old(db.sales)
      invariant db.supplierInvoices == old(db.supplierInvoices) && db.settings == old(db.settings)
    {
      importedCount, errors := ImportRow(db, items[i], i, importedCount, errors, now, parseDate, suffix(i));
      i := i + 1;
    }
  }

  /** The body of the `for` loop for row `i`: find or create the group, then create the unit. */
  method ImportRow(db: Store, item: Item, i: nat, importedCount: nat, errors: seq<string>, now: Time,
                   parseDate: Val -> Option<Time>, suffix: string) returns (importedCount': nat, errors': seq<string>)
    requires db.Valid()
    modifies db
    ensures db.Valid()
    ensures State(db.groups, db.units, db.nextId, importedCount', errors')
      == Row(State(old(db.groups), old(db.units), old(db.nextId), importedCount, errors), item, i, now, parseDate, suffix)
    ensures db.requests == old(db.requests) && db.users == old(db.users) && db.sales == old(db.sales)
    ensures db.supplierInvoices == old(db.supplierInvoices) && db.settings == old(db.settings)
  {
    importedCount', errors' := importedCount, errors;
    var key := RowKey(item);
    if key.None? {
      errors' := errors + [RowError(i, MissingFields)];
      return;
    }
    var group := UpsertGroup(db, key.value, Threshold(item), now);
    var outcome := UnitFor(item, i, db.units, db.nextId, group.id, now, parseDate, suffix);
    if outcome.Failed? {
      errors' := errors + [outcome.message];
    } else {
      InsertUnit(db, outcome.unit);
      importedCount' := importedCount + 1;
    }
  }

  /** The upsert of a row's group, on the store: `Upsert`, keeping the unique indexes. */
  method UpsertGroup(db: Store, k: GroupKey, threshold: real, now: Time) returns (group: ProductGroup)
    requires db.Valid()
    modifies db
    ensures db.Valid()
    ensures (db.groups, group, db.nextId as nat) == Upsert(old(db.groups), old(db.nextId), k, threshold, now)
    ensures db.units == old(db.units) && db.requests == old(db.requests) && db.users == old(db.users)
    ensures db.sales == old(db.sales) && db.supplierInvoices == old(db.supplierInvoices) && db.settings == old(db.settings)
  {
    var found := FindGroup(db.groups, k);
    if found.Some? {
      group := db.groups[found.value];
    } else {
      group := ProductGroup(db.nextId, k.brandName, k.subCategory, k.productName, k.quantityPerItem,
        k.measure, k.sellingPrice, Some(threshold), now);
      DistinctAppend(db.groups, KeyOf, group);
      DistinctAppend(db.groups, GroupId, group);
      db.groups := db.groups + [group];
      db.nextId := db.nextId + 1;
    }
  }

  /** `InventoryUnit.create` of a unit under a SKU not yet stored and the next id. */
  method InsertUnit(db: Store, u: InventoryUnit)
    requires db.Valid() && u.id == db.nextId && !SkuTaken(db.units, u.sku)
    modifies db
    ensures db.Valid()
    ensures db.units == old(db.units) + [u] && db.nextId == old(db.nextId) + 1
    ensures db.groups == old(db.groups) && db.requests == old(db.requests) && db.users == old(db.users)
    ensures db.sales == old(db.sales) && db.supplierInvoices == old(db.supplierInvoices) && db.settings == old(db.settings)
  {
    DistinctAppend(db.units, Sku, u);
    DistinctAppend(db.units, UnitId, u);
    db.units := db.units + [u];
    db.nextId := db.nextId + 1;
  }

  // -------------------------------------------------------------- properties

  /** Every row is accounted for exactly once: it either imported a unit or reported an error. */
  lemma {:induction false} EveryRowAccounted(st: State, items: seq<Item>, k: nat, now: Time,
                                             parseDate: Val -> Option<Time>, suffix: nat -> string)
    requires k <= |items|
    ensures RunRows(st, items, k, now, parseDate, suffix).imported + |RunRows(st, items, k, now, parseDate, suffix).errors|
      == st.imported + |st.errors| + k
    ensures |RunRows(st, items, k, now, parseDate, suffix).units| == |st.units| + RunRows(st, items, k, now, parseDate, suffix).imported - st.imported
    ensures RunRows(st, items, k, now, parseDate, suffix).imported >= st.imported
    decreases k
  {
    if k > 0 {
      EveryRowAccounted(st, items, k - 1, now, parseDate, suffix);
      RowStep(RunRows(st, items, k - 1, now, parseDate, suffix), items[k - 1], k - 1, now, parseDate, suffix(k - 1));
    }
  }

  /** A row either imports one unit, appended, or appends one error. */
  lemma RowStep(st: State, item: Item, index: nat, now: Time, parseDate: Val -> Option<Time>, suffix: string)
    ensures var r := Row(st, item, index, now, parseDate, suffix);
      (r.imported == st.imported + 1 && |r.units| == |st.units| + 1 && r.units[..|st.units|] == st.units
       && r.errors == st.errors)
      || (r.imported == st.imported && r.units == st.units && |r.errors| == |st.errors| + 1)
  {
  }

  /**
   * The loop only appends: the groups, units and errors before it stay as
   * they were at the front, and the id counter and the import count never
   * go down.
   */
  lemma {:induction false} RunRowsGrows(st: State, items: seq<Item>, k: nat, now: Time,
                                        parseDate: Val -> Option<Time>, suffix: nat -> string)
    requires k <= |items|
    ensures var r := RunRows(st, items, k, now, parseDate, suffix);
      st.groups <= r.groups && st.units <= r.units && st.errors <= r.errors
      && r.nextId >= st.nextId && r.imported >= st.imported
    decreases k
  {
    if k > 0 {
      RunRowsGrows(st, items, k - 1, now, parseDate, suffix);
      RowGrows(RunRows(st, items, k - 1, now, parseDate, suffix), items[k - 1], k - 1, now, parseDate, suffix(k - 1));
    }
  }

  /** One row only appends. */
  lemma RowGrows(st: State, item: Item, index: nat, now: Time, parseDate: Val -> Option<Time>, suffix: string)
    ensures var r := Row(st, item, index, now, parseDate, suffix);
      st.groups <= r.groups && st.units <= r.units && st.errors <= r.errors
      && r.nextId >= st.nextId && r.imported >= st.imported
  {
  }

  /** A row missing an identity field records that error and writes nothing. */
  lemma MissingFieldsWriteNothing(st: State, item: Item, index: nat, now: Time, parseDate: Val -> Option<Time>, suffix: string)
    requires RowKey(item).None?
    ensures Row(st, item, index, now, parseDate, suffix)
      == st.(errors := st.errors + ["Row " + NatToString(index + 1) + ": " + MissingFields])
  {
  }

  /** A zero or non-numeric quantity per item counts as a missing identity field. */
  lemma FalsyQuantityIsMissing(item: Item)
    requires !NumTruthy(ToNumber(Pick(item, "QtyPerItem", "quantityPerItem")))
    ensures RowKey(item).None?
  {
  }

  /** The PascalCase column wins whenever it is truthy; otherwise the camelCase one is read. */
  lemma PascalCaseFirst(item: Item, pascal: string, camel: string)
    ensures Truthy(Field(item, pascal)) ==> Pick(item, pascal, camel) == Field(item, pascal)
    ensures !Truthy(Field(item, pascal)) ==> Pick(item, pascal, camel) == Field(item, camel)
  {
  }

  /**
   * A row whose group already exists reuses it: the group collection and the
   * existing group's threshold are untouched.
   */
  lemma ExistingGroupReused(st: State, item: Item, index: nat, now: Time, parseDate: Val -> Option<Time>, suffix: string)
    requires RowKey(item).Some? && FindGroup(st.groups, RowKey(item).value).Some?
    ensures Row(st, item, index, now, parseDate, suffix).groups == st.groups
  {
  }

  /**
   * The group is written before the cost check: a row with a new identity
   * and no cost price leaves that group behind and imports no unit.
   */
  lemma GroupCreatedBeforeCostCheck(st: State, item: Item, index: nat, now: Time, parseDate: Val -> Option<Time>, suffix: string)
    requires RowKey(item).Some? && FindGroup(st.groups, RowKey(item).value).None?
    requires !NumTruthy(ToNumber(Pick(item, "CostPrice", "costPrice")))
    ensures |Row(st, item, index, now, parseDate, suffix).groups| == |st.groups| + 1
    ensures Row(st, item, index, now, parseDate, suffix).units == st.units
    ensures Row(st, item, index, now, parseDate, suffix).imported == st.imported
  {
  }

  /** A supplied SKU that is already stored is a row error, and no unit is added. */
  lemma ExistingSkuRejected(st: State, item: Item, index: nat, now: Time, parseDate: Val -> Option<Time>, suffix: string)
    requires RowKey(item).Some?
    requires NumTruthy(ToNumber(Pick(item, "CostPrice", "costPrice")))
    requires Truthy(Pick(item, "ExpiryDate", "expiryDate")) && parseDate(Pick(item, "ExpiryDate", "expiryDate")).Some?
    requires Truthy(Pick(item, "SKU", "sku")) && SkuTaken(st.units, ValToString(Pick(item, "SKU", "sku")))
    ensures Row(st, item, index, now, parseDate, suffix).units == st.units
    ensures Row(st, item, index, now, parseDate, suffix).errors
      == st.errors + [RowError(index, "SKU " + ValToString(Pick(item, "SKU", "sku")) + " already exists")]
  {
  }

  /**
   * A row without a SKU whose brand is not text (a number, say) fails with the
   * TypeError's own message, which is not prefixed with the row number.
   */
  lemma NonTextBrandBareMessage(st: State, item: Item, index: nat, now: Time, parseDate: Val -> Option<Time>, suffix: string)
    requires RowKey(item).Some?
    requires NumTruthy(ToNumber(Pick(item, "CostPrice", "costPrice")))
    requires Truthy(Pick(item, "ExpiryDate", "expiryDate")) && parseDate(Pick(item, "ExpiryDate", "expiryDate")).Some?
    requires !Truthy(Pick(item, "SKU", "sku")) && !Pick(item, "Brand", "brandName").Str?
    ensures Row(st, item, index, now, parseDate, suffix).units == st.units
    ensures Row(st, item, index, now, parseDate, suffix).errors == st.errors + [NotAString("brandName")]
    ensures NotAString("brandName")[..4] != "Row "
  {
    assert NotAString("brandName")[..4][0] == 'b';
  }

  /** The generated prefix has no whitespace and no lower-case ASCII letter, and ends in '-' + suffix. */
  lemma {:induction false} RemoveSpacesShorter(s: string)
    ensures |RemoveSpaces(s)| <= |s|
    decreases |s|
  {
    if s != [] {
      RemoveSpacesShorter(s[1..]);
    }
  }

  /** The unique indexes of the unit collection, with unit ids below `nextId`. */
  ghost predicate UnitsIndexed(st: State) {
    Distinct(st.units, Sku) && Distinct(st.units, UnitId)
    && forall i :: 0 <= i < |st.units| ==> st.units[i].id < st.nextId
  }

  /** The unique indexes of the group collection, with group ids below `nextId`. */
  ghost predicate GroupsIndexed(st: State) {
    Distinct(st.groups, KeyOf) && Distinct(st.groups, GroupId)
    && forall i :: 0 <= i < |st.groups| ==> st.groups[i].id < st.nextId
  }

  /** The loop keeps the unique indexes of both collections it writes. */
  lemma RowsKeepIndexes(st: State, items: seq<Item>, k: nat, now: Time,
                        parseDate: Val -> Option<Time>, suffix: nat -> string)
    requires k <= |items|
    requires UnitsIndexed(st) && GroupsIndexed(st)
    ensures var r := RunRows(st, items, k, now, parseDate, suffix);
      UnitsIndexed(r) && GroupsIndexed(r)
  {
    var keeps := (j: nat) => j <= |items| && UnitsIndexed(RunRows(st, items, j, now, parseDate, suffix))
                               && GroupsIndexed(RunRows(st, items, j, now, parseDate, suffix));
    forall j: nat | 0 < j <= k && keeps(j - 1)
      ensures keeps(j)
    {
      NextRowKeepsIndexes(st, items, j, now, parseDate, suffix);
    }
    StepInduction(keeps, k);
  }

  /** A property of the start that every step keeps holds after `k` steps. */
  lemma {:induction false} StepInduction(p: nat -> bool, k: nat)
    requires p(0)
    requires forall j: nat :: 0 < j <= k && p(j - 1) ==> p(j)
    ensures p(k)
    decreases k
  {
    if k > 0 {
      StepInduction(p, k - 1);
    }
  }

  /** Row `k - 1` keeps both indexes. */
  lemma NextRowKeepsIndexes(st: State, items: seq<Item>, k: nat, now: Time,
                            parseDate: Val -> Option<Time>, suffix: nat -> string)
    requires 0 < k <= |items|
    requires var p := RunRows(st, items, k - 1, now, parseDate, suffix);
      UnitsIndexed(p) && GroupsIndexed(p)
    ensures var r := RunRows(st, items, k, now, parseDate, suffix);
      UnitsIndexed(r) && GroupsIndexed(r)
  {
    var p := RunRows(st, items, k - 1, now, parseDate, suffix);
    var r := RunRows(st, items, k, now, parseDate, suffix);
    RowKeepsUnitIndexes(p, items[k - 1], k - 1, now, parseDate, suffix(k - 1), r);
    RowKeepsGroupIndexes(p, items[k - 1], k - 1, now, parseDate, suffix(k - 1), r);
  }

  /** A row keeps SKUs and unit ids distinct: it adds a unit only under a SKU not yet stored. */
  lemma RowKeepsUnitIndexes(st: State, item: Item, index: nat, now: Time, parseDate: Val -> Option<Time>, suffix: string, r: State)
    requires UnitsIndexed(st)
    requires r == Row(st, item, index, now, parseDate, suffix)
    ensures UnitsIndexed(r)
  {
    if RowKey(item).Some? {
      var key := RowKey(item).value;
      var (groups, group, nextId) := Upsert(st.groups, st.nextId, key, Threshold(item), now);
      var o := UnitFor(item, index, st.units, nextId, group.id, now, parseDate, suffix);
      if o.Created? {
        DistinctAppend(st.units, Sku, o.unit);
        DistinctAppend(st.units, UnitId, o.unit);
      }
    }
  }

  /** A row keeps group keys and ids distinct: it creates a group only for a key not yet stored. */
  lemma RowKeepsGroupIndexes(st: State, item: Item, index: nat, now: Time, parseDate: Val -> Option<Time>, suffix: string, r: State)
    requires GroupsIndexed(st)
    requires r == Row(st, item, index, now, parseDate, suffix)
    ensures GroupsIndexed(r)
  {
    if RowKey(item).Some? {
      var key := RowKey(item).value;
      var (groups, group, nextId) := Upsert(st.groups, st.nextId, key, Threshold(item), now);
      if FindGroup(st.groups, key).None? {
        DistinctAppend(st.groups, KeyOf, group);
        DistinctAppend(st.groups, GroupId, group);
      }
    }
  }
}
