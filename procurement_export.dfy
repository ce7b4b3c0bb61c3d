/**
 * `GET /api/export/procurement`: an ADMIN downloads every procurement
 * request as one purchase row, with its group's product name and the first
 * file of the supplier invoice filed against it.
 */
module ProcurementExport {
  import opened Base
  import opened Js
  import opened Models
  import opened CsvWriter

  const Headers: seq<string> := ["supplier_name", "product_name", "quantity", "purchase_price",
                                 "invoice_no", "purchase_date", "status"]

  /** `r.approvedQty || r.requestedQty || 0` */
  function Quantity(r: ProcurementRequest): real {
    if r.approvedQty != 0.0 then r.approvedQty else if r.requestedQty != 0.0 then r.requestedQty else 0.0
  }

  /** `invoiceMap.get(id)`: the map built from the invoices in query order keeps the last one filed against `id`. */
  function LastInvoice(invoices: seq<SupplierInvoice>, id: Id): (inv: Option<SupplierInvoice>)
    decreases |invoices|
  {
    if invoices == [] then None
    else if invoices[|invoices| - 1].procurementId == id then Some(invoices[|invoices| - 1])
    else LastInvoice(invoices[..|invoices| - 1], id)
  }

  /** `inv?.files?.[0] || ''` as written: the first file is an object, which `String` prints as `[object Object]`. */
  function InvoiceNoAsWritten(inv: Option<SupplierInvoice>): Cell {
    if inv.Some? && |inv.value.files| > 0 then Object else Text("")
  }

  /** The invoice number the column is meant to carry: the first file's name, or '' without an invoice. */
  function InvoiceNo(inv: Option<SupplierInvoice>): Cell {
    if inv.Some? && |inv.value.files| > 0 then Text(inv.value.files[0].fileName) else Text("")
  }

  /** The row of one request, given the value of its `invoice_no` column; `iso` is `toISOString`. */
  function RowWith(r: ProcurementRequest, groups: seq<ProductGroup>, iso: Time -> string, invoiceNo: Cell): Row {
    var p := GroupById(groups, r.productGroupId);
    map[
      "supplier_name" := Text(""),
      "product_name" := Text(if p.Some? then p.value.productName else ""),
      "quantity" := Number(Quantity(r)),
      "purchase_price" := Number(r.estimatedPrice.GetOr(0.0)),
      "invoice_no" := invoiceNo,
      "purchase_date" := Text(iso(r.updatedAt)),
      "status" := Text(RequestStatusName(r.status))]
  }

  function RequestRowAsWritten(r: ProcurementRequest, groups: seq<ProductGroup>, invoices: seq<SupplierInvoice>,
                               iso: Time -> string): Row {
    RowWith(r, groups, iso, InvoiceNoAsWritten(LastInvoice(invoices, r.id)))
  }

  function RequestRow(r: ProcurementRequest, groups: seq<ProductGroup>, invoices: seq<SupplierInvoice>,
                      iso: Time -> string): Row {
    RowWith(r, groups, iso, InvoiceNo(LastInvoice(invoices, r.id)))
  }

  function Rows(requests: seq<ProcurementRequest>, groups: seq<ProductGroup>, invoices: seq<SupplierInvoice>,
                iso: Time -> string): (rows: seq<Row>)
    ensures |rows| == |requests|
  {
    seq(|requests|, i requires 0 <= i < |requests| => RequestRow(requests[i], groups, invoices, iso))
  }

  /** `GET`: the export of all requests; `now` is the current instant the file name's date comes from. */
  function Get(session: Option<Session>, format: Option<string>, requests: seq<ProcurementRequest>,
               groups: seq<ProductGroup>, invoices: seq<SupplierInvoice>, iso: Time -> string, now: Time)
    : (r: Http<Download>)
    ensures r.Err? <==> session.None? || session.value.role != "ADMIN"
    ensures r.Err? ==> r.status == 403 && r.message == "Forbidden"
    ensures r.Ok? ==> r.status == 200 && r.value.cacheControl == "no-store"
    ensures r.Ok? && Format(format) == "xlsx" ==>
      r.value.contentType == XlsxType
      && r.value.body == Workbook("Procurement", Headers, Rows(requests, groups, invoices, iso))
    ensures r.Ok? && Format(format) != "xlsx" ==>
      r.value.contentType == CsvType
      && r.value.body == CsvText(ToCsv(Headers, Rows(requests, groups, invoices, iso)))
  {
    if session.None? || session.value.role != "ADMIN" then Err(403, "Forbidden")
    else
      var rows := Rows(requests, groups, invoices, iso);
      var dateStr := Prefix(iso(now), 10);
      if Format(format) == "xlsx" then
        Ok(200, Download(XlsxType, "attachment; filename=\"procurement_" + dateStr + ".xlsx\"", "no-store",
          Workbook("Procurement", Headers, rows)))
      else
        Ok(200, Download(CsvType, "attachment; filename=\"procurement_" + dateStr + ".csv\"", "no-store",
          CsvText(ToCsv(Headers, rows))))
  }

  // -------------------------------------------------------------------- lemmas

  /** The quantity is the approved one when set, else the requested one when set, else 0. */
  lemma QuantityChoice(r: ProcurementRequest)
    ensures Quantity(r) == 0.0 <==> r.approvedQty == 0.0 && r.requestedQty == 0.0
    ensures Quantity(r) != 0.0 ==> Quantity(r) == r.approvedQty || Quantity(r) == r.requestedQty
    ensures r.approvedQty != 0.0 ==> Quantity(r) == r.approvedQty
  {
  }

  /** The invoice found is filed against the request, and none later in query order is. */
  lemma {:induction false} LastInvoiceWins(invoices: seq<SupplierInvoice>, id: Id)
    ensures LastInvoice(invoices, id).None? <==> forall i :: 0 <= i < |invoices| ==> invoices[i].procurementId != id
    ensures LastInvoice(invoices, id).Some? ==>
      exists k :: (0 <= k < |invoices| && invoices[k] == LastInvoice(invoices, id).value
        && invoices[k].procurementId == id
        && forall j :: k < j < |invoices| ==> invoices[j].procurementId != id)
    decreases |invoices|
  {
    if invoices != [] {
      var n := |invoices| - 1;
      var front := invoices[..n];
      LastInvoiceWins(front, id);
      if invoices[n].procurementId == id {
        assert invoices[n] == LastInvoice(invoices, id).value;
      } else if LastInvoice(front, id).Some? {
        var k :| 0 <= k < |front| && front[k] == LastInvoice(front, id).value && front[k].procurementId == id
          && forall j :: k < j < |front| ==> front[j].procurementId != id;
        assert invoices[k] == front[k];
      } else {
        assert forall i :: 0 <= i < n ==> invoices[i] == front[i];
      }
    }
  }

  /**
   * The fixed columns of a row: no supplier, the estimated price or 0, the
   * request's status; the invoice number is the first file's name, or '' when
   * no invoice was filed.
   */
  lemma RowValues(r: ProcurementRequest, groups: seq<ProductGroup>, invoices: seq<SupplierInvoice>,
                  iso: Time -> string)
    ensures var row := RequestRow(r, groups, invoices, iso);
      row.Keys == set h | h in Headers
      && row["supplier_name"] == Text("") && row["quantity"] == Number(Quantity(r))
      && row["purchase_price"] == Number(if r.estimatedPrice.Some? then r.estimatedPrice.value else 0.0)
      && row["status"] == Text(RequestStatusName(r.status))
      && ((forall i :: 0 <= i < |invoices| ==> invoices[i].procurementId != r.id) ==> row["invoice_no"] == Text(""))
      && ((forall i :: 0 <= i < |groups| ==> groups[i].id != r.productGroupId) ==> row["product_name"] == Text(""))
  {
    LastInvoiceWins(invoices, r.id);
  }

  /**
   * The code as written puts `[object Object]` in the invoice column of every
   * request with a filed invoice, where the file's name is meant.
   */
  lemma ObjectInInvoiceColumn(r: ProcurementRequest, groups: seq<ProductGroup>, f: InvoiceFile, iso: Time -> string)
    ensures var invoices := [SupplierInvoice(0, r.id, [f])];
      Encode(Value(RequestRowAsWritten(r, groups, invoices, iso), "invoice_no")) == "[object Object]"
      && Encode(Value(RequestRow(r, groups, invoices, iso), "invoice_no")) == Encode(Text(f.fileName))
  {
  }

  /** In the corrected export the invoice field reads back as the name of the invoice's first file. */
  lemma InvoiceNameReadsBack(r: ProcurementRequest, groups: seq<ProductGroup>, invoices: seq<SupplierInvoice>,
                             iso: Time -> string)
    requires LastInvoice(invoices, r.id).Some? && |LastInvoice(invoices, r.id).value.files| > 0
    ensures var f := Encode(Value(RequestRow(r, groups, invoices, iso), "invoice_no"));
      |f| >= 2 && f[0] == '"' && f[|f| - 1] == '"'
      && Unescape(f[1..|f| - 1]) == Some(LastInvoice(invoices, r.id).value.files[0].fileName)
  {
    QuotedField(LastInvoice(invoices, r.id).value.files[0].fileName);
  }

  /**
   * The CSV has the header line, then one line per request in stored order,
   * as long as no text value holds a newline.
   */
  lemma CsvShape(requests: seq<ProcurementRequest>, groups: seq<ProductGroup>, invoices: seq<SupplierInvoice>,
                 iso: Time -> string)
    requires forall j :: 0 <= j < |requests| ==> TextsAvoid(RequestRow(requests[j], groups, invoices, iso), '\n')
    ensures var lines := Split(ToCsv(Headers, Rows(requests, groups, invoices, iso)), '\n');
      |lines| == |requests| + 1 && lines[0] == Join(Headers, ",")
      && forall k :: 0 <= k < |requests| ==> lines[k + 1] == Line(Headers, RequestRow(requests[k], groups, invoices, iso))
  {
    CsvLines(Headers, Rows(requests, groups, invoices, iso));
  }

  /** The header line splits back into the seven column names. */
  lemma HeaderCells()
    ensures Split(Join(Headers, ","), ',') == Headers
  {
    SplitJoin(Headers, ',');
  }
}
