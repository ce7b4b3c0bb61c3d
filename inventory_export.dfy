/**
 * `GET /api/export/inventory`: an ADMIN downloads every inventory unit as one
 * row, with the product name, category and selling price of its group, in
 * CSV or as an Excel sheet.
 */
module InventoryExport {
  import opened Base
  import opened Js
  import opened Models
  import opened CsvWriter

  const Headers: seq<string> := ["product_name", "sku", "category", "cost_price", "selling_price",
                                 "tax_rate", "stock_qty", "status", "created_at"]

  /**
   * The row of one unit; `iso` is `toISOString`. A unit's `stockedDate` is
   * always set, so `created_at` is always written from it.
   */
  function UnitRow(u: InventoryUnit, groups: seq<ProductGroup>, iso: Time -> string): Row {
    var p := GroupById(groups, u.productGroupId);
    map[
      "product_name" := Text(if p.Some? then p.value.productName else ""),
      "sku" := Text(u.sku),
      "category" := Text(if p.Some? then p.value.subCategory else ""),
      "cost_price" := Number(u.costPrice),
      "selling_price" := Number(if p.Some? then p.value.sellingPrice else 0.0),
      "tax_rate" := Number(0.0),
      "stock_qty" := Number(1.0),
      "status" := Text(UnitStatusName(u.status)),
      "created_at" := Text(iso(u.stockedDate))]
  }

  function Rows(units: seq<InventoryUnit>, groups: seq<ProductGroup>, iso: Time -> string): (rows: seq<Row>)
    ensures |rows| == |units|
  {
    seq(|units|, i requires 0 <= i < |units| => UnitRow(units[i], groups, iso))
  }

  /** `GET`: the export of all units; `now` is the current instant the file name's date comes from. */
  function Get(session: Option<Session>, format: Option<string>, units: seq<InventoryUnit>,
               groups: seq<ProductGroup>, iso: Time -> string, now: Time): (r: Http<Download>)
    ensures r.Err? <==> session.None? || session.value.role != "ADMIN"
    ensures r.Err? ==> r.status == 403 && r.message == "Forbidden"
    ensures r.Ok? ==> r.status == 200 && r.value.cacheControl == "no-store"
    ensures r.Ok? && Format(format) == "xlsx" ==>
      r.value.contentType == XlsxType
      && r.value.body == Workbook("Inventory", Headers, Rows(units, groups, iso))
    ensures r.Ok? && Format(format) != "xlsx" ==>
      r.value.contentType == CsvType && r.value.body == CsvText(ToCsv(Headers, Rows(units, groups, iso)))
  {
    if session.None? || session.value.role != "ADMIN" then Err(403, "Forbidden")
    else
      var rows := Rows(units, groups, iso);
      var dateStr := Prefix(iso(now), 10);
      if Format(format) == "xlsx" then
        Ok(200, Download(XlsxType, "attachment; filename=\"inventory_" + dateStr + ".xlsx\"", "no-store",
          Workbook("Inventory", Headers, rows)))
      else
        Ok(200, Download(CsvType, "attachment; filename=\"inventory_" + dateStr + ".csv\"", "no-store",
          CsvText(ToCsv(Headers, rows))))
  }

  // -------------------------------------------------------------------- lemmas

  /**
   * Every row has one value per header; tax rate 0 and stock quantity 1; the
   * group's name, category and price, or '' and 0 when the group is gone.
   */
  lemma RowValues(u: InventoryUnit, groups: seq<ProductGroup>, iso: Time -> string)
    ensures var r := UnitRow(u, groups, iso);
      r.Keys == set h | h in Headers
      && r["tax_rate"] == Number(0.0) && r["stock_qty"] == Number(1.0)
      && r["sku"] == Text(u.sku) && r["cost_price"] == Number(u.costPrice)
      && r["status"] == Text(UnitStatusName(u.status))
      && ((forall i :: 0 <= i < |groups| ==> groups[i].id != u.productGroupId) ==>
            r["product_name"] == Text("") && r["category"] == Text("") && r["selling_price"] == Number(0.0))
      && (forall g :: g in groups && g.id == u.productGroupId && (forall h :: h in groups && h.id == g.id ==> h == g) ==>
            r["product_name"] == Text(g.productName) && r["category"] == Text(g.subCategory)
            && r["selling_price"] == Number(g.sellingPrice))
  {
  }

  /**
   * The CSV has the header line, then one line per unit in stored order, as
   * long as no name, SKU or timestamp holds a newline; with no comma in them
   * either, each line splits into the 9 encoded values.
   */
  lemma CsvShape(units: seq<InventoryUnit>, groups: seq<ProductGroup>, iso: Time -> string, k: nat)
    requires forall j :: 0 <= j < |units| ==> TextsAvoid(UnitRow(units[j], groups, iso), '\n')
    requires k < |units| && TextsAvoid(UnitRow(units[k], groups, iso), ',')
    ensures var lines := Split(ToCsv(Headers, Rows(units, groups, iso)), '\n');
      |lines| == |units| + 1
      && lines[0] == Join(Headers, ",") && Split(lines[0], ',') == Headers
      && lines[k + 1] == Line(Headers, UnitRow(units[k], groups, iso))
      && |Split(lines[k + 1], ',')| == 9
  {
    var rows := Rows(units, groups, iso);
    CsvLines(Headers, rows);
    HeaderCells();
    LineFields(Headers, rows[k]);
  }

  /** The header line splits back into the nine column names. */
  lemma HeaderCells()
    ensures Split(Join(Headers, ","), ',') == Headers
  {
    SplitJoin(Headers, ',');
  }

  /** A unit whose text fields hold no comma has its SKU in the second field, quoted, reading back. */
  lemma SkuField(u: InventoryUnit, groups: seq<ProductGroup>, iso: Time -> string)
    requires TextsAvoid(UnitRow(u, groups, iso), ',')
    ensures |Split(Line(Headers, UnitRow(u, groups, iso)), ',')| == 9
    ensures var f := Split(Line(Headers, UnitRow(u, groups, iso)), ',')[1];
      |f| >= 2 && f[0] == '"' && f[|f| - 1] == '"' && Unescape(f[1..|f| - 1]) == Some(u.sku)
  {
    var row := UnitRow(u, groups, iso);
    LineFields(Headers, row);
    assert Fields(Headers, row)[1] == Encode(Value(row, "sku"));
    assert Value(row, "sku") == Text(u.sku);
    QuotedField(u.sku);
  }
}
