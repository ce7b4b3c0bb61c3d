/**
 * `GET /api/import-template/products`: the blank product sheet users fill in
 * for the product import, as CSV with one sample row or as a header-only
 * Excel sheet.
 */
module ImportTemplate {
  import opened Base
  import opened Js
  import opened CsvWriter
  import opened CsvImport

  const CsvHeaders: seq<string> := ["product_name", "sku", "category", "cost_price", "selling_price",
                                    "tax_rate", "stock_qty", "status"]

  /** The sample row; the two prices are left empty for the user to fill in. */
  const SampleRow: seq<string> := ["Sample Product", "SKU-001", "Hair Care", "", "", "0", "0", "ACTIVE"]

  /** The CSV template: the header line, a newline, and the sample rows joined by newlines. */
  function TemplateCsv(): string {
    Join(CsvHeaders, ",") + "\n" + Join([Join(SampleRow, ",")], "\n")
  }

  /** `GET`: the xlsx format gives a sheet holding only the header row; anything else the CSV text. */
  function Get(format: Option<string>): (d: Download)
    ensures d.cacheControl == "no-store"
    ensures Format(format) == "xlsx" ==>
      d.contentType == XlsxType && d.body == Workbook("Products", CsvHeaders, [])
      && d.disposition == "attachment; filename=\"products_template.xlsx\""
    ensures Format(format) != "xlsx" ==>
      d.contentType == CsvType && d.body == CsvText(TemplateCsv())
      && d.disposition == "attachment; filename=\"products_template.csv\""
  {
    if Format(format) == "xlsx" then
      Download(XlsxType, "attachment; filename=\"products_template.xlsx\"", "no-store",
        Workbook("Products", CsvHeaders, []))
    else
      Download(CsvType, "attachment; filename=\"products_template.csv\"", "no-store", CsvText(TemplateCsv()))
  }

  // -------------------------------------------------------------------- lemmas

  /** A request without a format parameter, or with an empty one, gets the CSV template. */
  lemma CsvByDefault()
    ensures Get(None).body == CsvText(TemplateCsv())
    ensures Get(Some("")).body == CsvText(TemplateCsv())
  {
  }

  /** The template is the header line, a newline and the sample row, with eight columns each. */
  lemma TemplateLines()
    ensures TemplateCsv() == Join(CsvHeaders, ",") + "\n" + Join(SampleRow, ",")
    ensures Split(Join(CsvHeaders, ","), ',') == CsvHeaders && |CsvHeaders| == 8
    ensures Split(Join(SampleRow, ","), ',') == SampleRow && |SampleRow| == 8
  {
    HeadersPlain();
    SamplePlain();
    SplitJoin(CsvHeaders, ',');
    SplitJoin(SampleRow, ',');
  }

  /** The template's header names are exactly the columns the import schema reads, in its order. */
  lemma TemplateColumns()
    ensures forall i :: 0 <= i < |CsvHeaders| ==> exists c :: CsvHeaders[i] == ColumnName(c)
    ensures forall c :: ColumnName(c) in CsvHeaders
  {
    assert CsvHeaders[0] == ColumnName(ProductNameCol) && CsvHeaders[1] == ColumnName(SkuCol);
    assert CsvHeaders[2] == ColumnName(CategoryCol) && CsvHeaders[3] == ColumnName(CostPriceCol);
    assert CsvHeaders[4] == ColumnName(SellingPriceCol) && CsvHeaders[5] == ColumnName(TaxRateCol);
    assert CsvHeaders[6] == ColumnName(StockQtyCol) && CsvHeaders[7] == ColumnName(StatusCol);
  }

  /**
   * The product import reads the template as exactly one record, holding
   * each sample cell under its header.
   */
  lemma TemplateParses()
    ensures var records := ParseCsv(TemplateCsv());
      |records| == 1
      && records[0].Keys == (set i | 0 <= i < |CsvHeaders| :: CsvHeaders[i])
      && forall i :: 0 <= i < |CsvHeaders| ==> records[0][CsvHeaders[i]] == SampleRow[i]
  {
    TemplateLines();
    HeadersPlain();
    SamplePlain();
    HeadersDistinct();
    PlainTable(CsvHeaders, SampleRow);
  }

  /** The one record has product_name 'Sample Product', sku 'SKU-001' and status 'ACTIVE'. */
  lemma SampleValues()
    ensures |ParseCsv(TemplateCsv())| == 1
    ensures var r := ParseCsv(TemplateCsv())[0];
      "product_name" in r && "sku" in r && "status" in r
      && r["product_name"] == "Sample Product" && r["sku"] == "SKU-001" && r["status"] == "ACTIVE"
  {
    TemplateParses();
    var r := ParseCsv(TemplateCsv())[0];
    assert CsvHeaders[0] == "product_name" && CsvHeaders[1] == "sku" && CsvHeaders[7] == "status";
    assert r[CsvHeaders[0]] == SampleRow[0] && r[CsvHeaders[1]] == SampleRow[1] && r[CsvHeaders[7]] == SampleRow[7];
  }

  /**
   * The sample row passes the import schema as it stands: the empty prices
   * read as 0, and its stock quantity 0 adds no unit.
   */
  lemma SampleAccepted()
    ensures |ParseCsv(TemplateCsv())| == 1
    ensures var c := Validate(ParseCsv(TemplateCsv())[0]);
      c.Passed? && c.row.stockQty == 0 && c.row.costPrice == 0.0 && c.row.sellingPrice == 0.0
  {
    TemplateParses();
    var r := ParseCsv(TemplateCsv())[0];
    SampleCells(r);
    SampleConforms(r);
    ValidateConforms(r);
  }

  lemma SampleCells(r: Record)
    requires r.Keys == (set i | 0 <= i < |CsvHeaders| :: CsvHeaders[i])
    requires forall i :: 0 <= i < |CsvHeaders| ==> r[CsvHeaders[i]] == SampleRow[i]
    ensures "product_name" in r && "sku" in r && "category" in r && "cost_price" in r
    ensures "selling_price" in r && "tax_rate" in r && "stock_qty" in r && "status" in r
    ensures r["product_name"] == "Sample Product" && r["sku"] == "SKU-001" && r["category"] == "Hair Care"
    ensures r["cost_price"] == "" && r["selling_price"] == "" && r["tax_rate"] == "0" && r["stock_qty"] == "0"
    ensures r["status"] == "ACTIVE"
  {
    assert r[CsvHeaders[0]] == SampleRow[0] && r[CsvHeaders[1]] == SampleRow[1];
    assert r[CsvHeaders[2]] == SampleRow[2] && r[CsvHeaders[3]] == SampleRow[3];
    assert r[CsvHeaders[4]] == SampleRow[4] && r[CsvHeaders[5]] == SampleRow[5];
    assert r[CsvHeaders[6]] == SampleRow[6] && r[CsvHeaders[7]] == SampleRow[7];
  }

  /** A record with the sample's cells meets every field condition of the schema. */
  lemma SampleConforms(r: Record)
    requires "product_name" in r && "sku" in r && "category" in r && "cost_price" in r
    requires "selling_price" in r && "tax_rate" in r && "stock_qty" in r && "status" in r
    requires r["product_name"] == "Sample Product" && r["sku"] == "SKU-001" && r["category"] == "Hair Care"
    requires r["cost_price"] == "" && r["selling_price"] == "" && r["tax_rate"] == "0" && r["stock_qty"] == "0"
    requires r["status"] == "ACTIVE"
    ensures Conforms(r)
    ensures Coerced(r, CostPriceCol) == Real(0.0) && Coerced(r, SellingPriceCol) == Real(0.0)
    ensures Coerced(r, StockQtyCol) == Real(0.0)
  {
    ZeroText();
    assert Coerced(r, TaxRateCol) == Real(0.0);
  }

  lemma ZeroText()
    ensures ParseNumber("") == Real(0.0) && ParseNumber("0") == Real(0.0)
  {
    TrimUnchanged("0");
    assert AllDigits("0") && DigitsValue("0") == 0;
  }

  /** A word of lower-case letters and underscores is a plain header name. */
  lemma LowerWord(s: string)
    requires s != [] && forall j :: 0 <= j < |s| ==> 'a' <= s[j] <= 'z' || s[j] == '_'
    ensures PlainName(s)
  {
  }

  lemma HeadersPlain()
    ensures forall i :: 0 <= i < |CsvHeaders| ==> PlainName(CsvHeaders[i])
  {
    forall i | 0 <= i < |CsvHeaders|
      ensures PlainName(CsvHeaders[i])
    {
      LowerWord(CsvHeaders[i]);
    }
  }

  lemma SamplePlain()
    ensures forall i :: 0 <= i < |SampleRow| ==> PlainCell(SampleRow[i])
  {
  }

  lemma HeadersDistinct()
    ensures forall i, j :: 0 <= i < j < |CsvHeaders| ==> CsvHeaders[i] != CsvHeaders[j]
  {
  }
}
