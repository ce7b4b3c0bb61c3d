/**
 * `POST /api/import/products`: an ADMIN uploads a product sheet (CSV, or an
 * Excel workbook whose first sheet arrives already read into records). Every
 * valid row finds or creates a product group and adds `stock_qty` ACTIVE
 * units to it; every row gets a result entry, numbered as its line in the
 * sheet.
 */
module CsvImport {
  import opened Base
  import opened Js
  import opened Models
  import opened Dates
  import opened Db
  import InventoryImport

  /** A sheet row: cell text keyed by lower-case column name. */
  type Record = map<string, string>

  // ------------------------------------------------------------- parseCSV

  /** A header cell: trimmed and lower-cased. */
  function HeaderName(h: string): string {
    ToLower(Trim(h))
  }

  function Headers(line: string): (names: seq<string>)
    ensures |names| == |Split(line, ',')|
  {
    var cells := Split(line, ',');
    seq(|cells|, i requires 0 <= i < |cells| => HeaderName(cells[i]))
  }

  /** `(cols[i] ?? '').trim()` */
  function Cell(cols: seq<string>, i: nat): string {
    if i < |cols| then Trim(cols[i]) else ""
  }

  /** The record after `header.forEach` has visited its first `k` names. */
  function Fill(header: seq<string>, cols: seq<string>, k: nat): (obj: Record)
    requires k <= |header|
    ensures obj.Keys == set i | 0 <= i < k :: header[i]
    decreases k
  {
    if k == 0 then map[] else Fill(header, cols, k - 1)[header[k - 1] := Cell(cols, k - 1)]
  }

  /** The CSV text's lines, after trimming the whole text and splitting at `\r?\n`. */
  function Lines(text: string): (lines: seq<string>)
    ensures |lines| >= 1
  {
    SplitLines(Trim(text))
  }

  /** `parseCSV`: one record per line after the header; commas always separate cells. */
  function ParseCsv(text: string): (records: seq<Record>)
    ensures |records| == |Lines(text)| - 1
  {
    var lines := Lines(text);
    var header := Headers(lines[0]);
    seq(|lines| - 1, r requires 0 <= r < |lines| - 1 => Fill(header, Split(lines[r + 1], ','), |header|))
  }

  // ------------------------------------------------------------ RowSchema

  /** The columns `RowSchema` declares, in its order. */
  datatype Column = ProductNameCol | SkuCol | CategoryCol | CostPriceCol | SellingPriceCol
                  | TaxRateCol | StockQtyCol | StatusCol

  function ColumnName(c: Column): string {
    match c
    case ProductNameCol => "product_name"
    case SkuCol => "sku"
    case CategoryCol => "category"
    case CostPriceCol => "cost_price"
    case SellingPriceCol => "selling_price"
    case TaxRateCol => "tax_rate"
    case StockQtyCol => "stock_qty"
    case StatusCol => "status"
  }

  /** A zod issue: which check failed on which column (zod's message text is not modelled). */
  datatype Issue = Required(column: Column) | TooShort(column: Column) | NotANumber(column: Column)
                 | BelowZero(column: Column) | AboveHundred(column: Column) | NotInteger(column: Column)
                 | NotAStatus

  /** A row that passed the schema. */
  datatype ParsedRow = ParsedRow(
    productName: string, sku: string, category: string, costPrice: real, sellingPrice: real,
    taxRate: real, stockQty: nat, status: string)

  datatype Checked = Passed(row: ParsedRow) | Invalid(issues: seq<Issue>)

  /** `z.string().min(1)` */
  function TextIssues(row: Record, c: Column): seq<Issue> {
    if ColumnName(c) !in row then [Required(c)]
    else if row[ColumnName(c)] == "" then [TooShort(c)]
    else []
  }

  /** `z.coerce.number()` applies `Number(...)` to the cell, which is NaN when the cell is missing. */
  function Coerced(row: Record, c: Column): JsNumber {
    if ColumnName(c) in row then ParseNumber(row[ColumnName(c)]) else NaN
  }

  /** `z.coerce.number().min(0)`, followed by `.max(100)` when `capped`. */
  function AmountIssues(row: Record, c: Column, capped: bool): seq<Issue> {
    match Coerced(row, c)
    case NaN => [NotANumber(c)]
    case Real(x) =>
      (if x < 0.0 then [BelowZero(c)] else []) + (if capped && x > 100.0 then [AboveHundred(c)] else [])
  }

  /** `z.coerce.number().int().min(0)`: both checks run and both may report. */
  function CountIssues(row: Record, c: Column): seq<Issue> {
    match Coerced(row, c)
    case NaN => [NotANumber(c)]
    case Real(x) =>
      (if x.Floor as real != x then [NotInteger(c)] else []) + (if x < 0.0 then [BelowZero(c)] else [])
  }

  /** `z.enum(['ACTIVE', 'INACTIVE']).default('ACTIVE')` */
  function StatusIssues(row: Record): seq<Issue> {
    if "status" !in row || row["status"] == "ACTIVE" || row["status"] == "INACTIVE" then [] else [NotAStatus]
  }

  /** Every issue of the row, column by column in schema order: none exactly when the row meets the schema. */
  function Issues(row: Record): (r: seq<Issue>)
    ensures r == [] <==> Conforms(row)
    ensures ColumnName(ProductNameCol) !in row ==> r[0] == Required(ProductNameCol)
  {
    var r := TextIssues(row, ProductNameCol) + TextIssues(row, SkuCol) + TextIssues(row, CategoryCol)
      + AmountIssues(row, CostPriceCol, false) + AmountIssues(row, SellingPriceCol, false)
      + AmountIssues(row, TaxRateCol, true) + CountIssues(row, StockQtyCol) + StatusIssues(row);
    ConformingRowHasNoIssues(row);
    r
  }

  /** Each column check passes on a row that meets the schema. */
  lemma ConformingRowHasNoIssues(row: Record)
    ensures Conforms(row) ==>
      TextIssues(row, ProductNameCol) == [] && TextIssues(row, SkuCol) == [] && TextIssues(row, CategoryCol) == []
      && AmountIssues(row, CostPriceCol, false) == [] && AmountIssues(row, SellingPriceCol, false) == []
      && AmountIssues(row, TaxRateCol, true) == [] && CountIssues(row, StockQtyCol) == [] && StatusIssues(row) == []
  {
    if Conforms(row) {
      assert ProductNameCol in {ProductNameCol, SkuCol, CategoryCol};
      assert SkuCol in {ProductNameCol, SkuCol, CategoryCol};
      assert CategoryCol in {ProductNameCol, SkuCol, CategoryCol};
      assert CostPriceCol in {CostPriceCol, SellingPriceCol, TaxRateCol, StockQtyCol};
      assert SellingPriceCol in {CostPriceCol, SellingPriceCol, TaxRateCol, StockQtyCol};
      assert TaxRateCol in {CostPriceCol, SellingPriceCol, TaxRateCol, StockQtyCol};
      assert StockQtyCol in {CostPriceCol, SellingPriceCol, TaxRateCol, StockQtyCol};
    }
  }

  /** `RowSchema.parse(row)` */
  function Validate(row: Record): (r: Checked)
    ensures r.Invalid? ==> |r.issues| > 0
  {
    var issues := Issues(row);
    if issues != [] then Invalid(issues)
    else
      assert TextIssues(row, ProductNameCol) == [] && TextIssues(row, SkuCol) == [] && TextIssues(row, CategoryCol) == [];
      assert Coerced(row, CostPriceCol).Real? && Coerced(row, SellingPriceCol).Real?;
      assert Coerced(row, TaxRateCol).Real? && Coerced(row, StockQtyCol).Real?;
      var qty := Coerced(row, StockQtyCol).r;
      assert CountIssues(row, StockQtyCol) == [];
      Passed(ParsedRow(row["product_name"], row["sku"], row["category"], Coerced(row, CostPriceCol).r,
        Coerced(row, SellingPriceCol).r, Coerced(row, TaxRateCol).r, qty.Floor as nat,
        if "status" in row then row["status"] else "ACTIVE"))
  }

  /** The conditions of `RowSchema`, field by field. */
  predicate Conforms(row: Record) {
    (forall c :: c in {ProductNameCol, SkuCol, CategoryCol} ==> ColumnName(c) in row && row[ColumnName(c)] != "")
    && (forall c :: c in {CostPriceCol, SellingPriceCol, TaxRateCol, StockQtyCol} ==>
          Coerced(row, c).Real? && Coerced(row, c).r >= 0.0)
    && Coerced(row, TaxRateCol).r <= 100.0
    && Coerced(row, StockQtyCol).r.Floor as real == Coerced(row, StockQtyCol).r
    && ("status" in row ==> row["status"] in {"ACTIVE", "INACTIVE"})
  }

  // ------------------------------------------------------------- the loop

  datatype Upload = Upload(name: string, text: string)

  /** One entry of `results`; `index` is the row's line in the sheet (header = line 1). */
  datatype RowResult = Inserted(index: nat) | Rejected(index: nat, issues: seq<Issue>) | InsertFailed(index: nat)

  datatype Report = Report(inserted: nat, errors: nat, results: seq<RowResult>)

  datatype CsvState = CsvState(
    groups: seq<ProductGroup>, units: seq<InventoryUnit>, nextId: nat,
    inserted: nat, results: seq<RowResult>)

  /** The group identity a row maps to: brand 'Generic', one piece per item. */
  function RowKey(p: ParsedRow): GroupKey {
    GroupKey("Generic", p.category, p.productName, 1.0, "piece", p.sellingPrice)
  }

  function UnitSku(prefix: string, p: ParsedRow, suffix: string): string {
    prefix + "-" + p.sku + "-" + suffix
  }

  /** The units built for a row before insertion (their ids are given when they are inserted). */
  function Batch(p: ParsedRow, gid: Id, prefix: string, now: Time, suffixes: seq<string>): (batch: seq<InventoryUnit>)
    ensures |batch| == |suffixes|
  {
    seq(|suffixes|, n requires 0 <= n < |suffixes| =>
      InventoryUnit(0, gid, UnitSku(prefix, p, suffixes[n]), now, now, p.costPrice, ACTIVE, None, None, now))
  }

  /** The random parts of row `i`'s SKUs. */
  function Suffixes(suffix: (nat, nat) -> string, i: nat, count: nat): (s: seq<string>)
    ensures |s| == count
  {
    seq(count, n requires 0 <= n < count => suffix(i, n))
  }

  datatype InsertResult = InsertResult(units: seq<InventoryUnit>, nextId: nat, ok: bool)

  /**
   * An ordered `insertMany`: the documents go in one by one and the first
   * whose SKU is already stored stops the batch, keeping those before it.
   */
  function InsertMany(units: seq<InventoryUnit>, nextId: nat, batch: seq<InventoryUnit>): (r: InsertResult)
    ensures units <= r.units && |r.units| - |units| == r.nextId - nextId
    ensures r.ok ==> |r.units| == |units| + |batch|
    ensures !r.ok ==> |r.units| < |units| + |batch|
    decreases |batch|
  {
    if batch == [] then InsertResult(units, nextId, true)
    else if InventoryImport.SkuTaken(units, batch[0].sku) then InsertResult(units, nextId, false)
    else InsertMany(units + [batch[0].(id := nextId)], nextId + 1, batch[1..])
  }

  /** The state after the group of a valid row is known: insert its units and record the result. */
  function Commit(st: CsvState, batch: seq<InventoryUnit>, index: nat): (r: CsvState)
    ensures r.groups == st.groups
  {
    var ins := if |batch| > 0 then InsertMany(st.units, st.nextId, batch) else InsertResult(st.units, st.nextId, true);
    if ins.ok then CsvState(st.groups, ins.units, ins.nextId, st.inserted + |batch|, st.results + [Inserted(index)])
    else CsvState(st.groups, ins.units, ins.nextId, st.inserted, st.results + [InsertFailed(index)])
  }

  /** One iteration of the loop: the state after row `i`, whose schema check gave `c`. */
  function CsvRow(st: CsvState, c: Checked, i: nat, prefix: string, now: Time, suffix: (nat, nat) -> string): CsvState {
    match c
    case Invalid(issues) => st.(results := st.results + [Rejected(i + 2, issues)])
    case Passed(p) =>
      var (groups, group, nextId) := InventoryImport.Upsert(st.groups, st.nextId, RowKey(p), DefaultLowStockThreshold, now);
      Commit(st.(groups := groups, nextId := nextId), Batch(p, group.id, prefix, now, Suffixes(suffix, i, p.stockQty)), i + 2)
  }

  /** The schema check of every row. */
  function Checks(rows: seq<Record>): (checks: seq<Checked>)
    ensures |checks| == |rows|
  {
    seq(|rows|, j requires 0 <= j < |rows| => Validate(rows[j]))
  }

  /** The state after the first `k` rows, whose schema checks are `checks`. */
  function RunCsv(st: CsvState, checks: seq<Checked>, k: nat, prefix: string, now: Time, suffix: (nat, nat) -> string)
    : (r: CsvState)
    requires k <= |checks|
    ensures st.groups <= r.groups && st.units <= r.units && st.results <= r.results
    ensures r.nextId >= st.nextId && r.inserted >= st.inserted
    decreases k
  {
    if k == 0 then st
    else CsvRow(RunCsv(st, checks, k - 1, prefix, now, suffix), checks[k - 1], k - 1, prefix, now, suffix)
  }

  /** `results.filter((r) => r.status === 'error').length` */
  function ErrorCount(results: seq<RowResult>): (n: nat)
    ensures n <= |results|
  {
    if results == [] then 0 else ErrorCount(results[..|results| - 1]) + (if results[|results| - 1].Inserted? then 0 else 1)
  }

  /** The rows of the upload by its lower-cased extension, or `None` for an unsupported type. */
  function SourceRows(file: Upload, sheet: seq<Record>): Option<seq<Record>> {
    var name := ToLower(file.name);
    if EndsWith(name, ".xlsx") || EndsWith(name, ".xls") then Some(sheet)
    else if EndsWith(name, ".csv") then Some(ParseCsv(file.text))
    else None
  }

  predicate IsAdmin(session: Option<Session>) {
    session.Some? && session.value.role == "ADMIN"
  }

  /**
   * Imports an upload. `sheet` is the first worksheet of a workbook as
   * `sheet_to_json` reads it, `today` the calendar day of the SKU prefix and
   * `suffix(i, n)` the random part of the SKU of unit `n` of row `i`.
   */
  method Post(db: Store, session: Option<Session>, file: Option<Upload>, sheet: seq<Record>,
              today: CalendarDay, now: Time, suffix: (nat, nat) -> string) returns (reply: Http<Report>)
    requires db.Valid()
    modifies db
    ensures db.Valid()
    ensures !IsAdmin(session) ==> reply == Err(403, "Forbidden") && db.groups == old(db.groups) && db.units == old(db.units)
    ensures IsAdmin(session) && file.None? ==>
      reply == Err(400, "Missing file") && db.groups == old(db.groups) && db.units == old(db.units)
    ensures IsAdmin(session) && file.Some? && SourceRows(file.value, sheet).None? ==>
      reply == Err(400, "Unsupported file type") && db.groups == old(db.groups) && db.units == old(db.units)
    ensures IsAdmin(session) && file.Some? && SourceRows(file.value, sheet).Some? ==>
      var rows := SourceRows(file.value, sheet).value;
      var st := RunCsv(CsvState(old(db.groups), old(db.units), old(db.nextId), 0, []), Checks(rows), |rows|,
                       DdMmYyyy(today), now, suffix);
      db.groups == st.groups && db.units == st.units && db.nextId == st.nextId
      && reply == Ok(200, Report(st.inserted, ErrorCount(st.results), st.results))
    ensures db.requests == old(db.requests) && db.users == old(db.users) && db.sales == old(db.sales)
    ensures db.supplierInvoices == old(db.supplierInvoices) && db.settings == old(db.settings)
  {
    if !IsAdmin(session) {
      return Err(403, "Forbidden");
    }
    if file.None? {
      return Err(400, "Missing file");
    }
    var source := SourceRows(file.value, sheet);
    if source.None? {
      return Err(400, "Unsupported file type");
    }
    var inserted, results := ImportRows(db, Checks(source.value), DdMmYyyy(today), now, suffix);
    reply := Ok(200, Report(inserted, ErrorCount(results), results));
  }

  /** The `for` loop over the rows, with its two accumulators; row `i`'s `RowSchema.parse` gave `checks[i]`. */
  method ImportRows(db: Store, checks: seq<Checked>, prefix: string, now: Time, suffix: (nat, nat) -> string)
    returns (inserted: nat, results: seq<RowResult>)
    requires db.Valid()
    modifies db
    ensures db.Valid()
    ensures CsvState(db.groups, db.units, db.nextId, inserted, results)
      == RunCsv(CsvState(old(db.groups), old(db.units), old(db.nextId), 0, []), checks, |checks|, prefix, now, suffix)
    ensures db.requests == old(db.requests) && db.users == old(db.users) && db.sales == old(db.sales)
    ensures db.supplierInvoices == old(db.supplierInvoices) && db.settings == old(db.settings)
  {
    ghost var st0 := CsvState(db.groups, db.units, db.nextId, 0, []);
    inserted, results := 0, [];
    var i := 0;
    while i < |checks|
      invariant 0 <= i <= |checks|
      invariant db.Valid()
      invariant RunCsv(st0, checks, i, prefix, now, suffix) == CsvState(db.groups, db.units, db.nextId, inserted, results)
      invariant db.requests == old(db.requests) && db.users == old(db.users) && db.sales == old(db.sales)
      invariant db.supplierInvoices == old(db.supplierInvoices) && db.settings == old(db.settings)
    {
      inserted, results := ImportCsvRow(db, checks[i], i, inserted, results, prefix, now, suffix);
      i := i + 1;
    }
  }

  /** The body of the row loop, once the row's schema check gave `checked`. */
  method ImportCsvRow(db: Store, checked: Checked, i: nat, inserted: nat, results: seq<RowResult>, prefix: string,
                      now: Time, suffix: (nat, nat) -> string) returns (inserted': nat, results': seq<RowResult>)
    requires db.Valid()
    modifies db
    ensures db.Valid()
    ensures CsvState(db.groups, db.units, db.nextId, inserted', results')
      == CsvRow(CsvState(old(db.groups), old(db.units), old(db.nextId), inserted, results), checked, i, prefix, now, suffix)
    ensures db.requests == old(db.requests) && db.users == old(db.users) && db.sales == old(db.sales)
    ensures db.supplierInvoices == old(db.supplierInvoices) && db.settings == old(db.settings)
  {
    if checked.Invalid? {
      inserted', results' := inserted, results + [Rejected(i + 2, checked.issues)];
      return;
    }
    var p := checked.row;
    var group := FindOrCreateGroup(db, RowKey(p), now);
    var units := BuildUnits(p, group.id, prefix, now, i, suffix);
    inserted', results' := InsertUnits(db, units, inserted, results, i + 2);
  }

  /** `findOneAndUpdate(key, {$setOnInsert: {..., lowStockThreshold: 10}}, {upsert: true, new: true})` */
  method FindOrCreateGroup(db: Store, key: GroupKey, now: Time) returns (group: ProductGroup)
    requires db.Valid()
    modifies db
    ensures db.Valid()
    ensures (db.groups, group, db.nextId as nat)
      == InventoryImport.Upsert(old(db.groups), old(db.nextId), key, DefaultLowStockThreshold, now)
    ensures db.units == old(db.units) && db.requests == old(db.requests) && db.users == old(db.users)
    ensures db.sales == old(db.sales) && db.supplierInvoices == old(db.supplierInvoices) && db.settings == old(db.settings)
  {
    group := InventoryImport.UpsertGroup(db, key, DefaultLowStockThreshold, now);
  }

  /** `if (units.length > 0) await InventoryUnit.insertMany(units)`, then the row's counters. */
  method InsertUnits(db: Store, units: seq<InventoryUnit>, inserted: nat, results: seq<RowResult>, index: nat)
    returns (inserted': nat, results': seq<RowResult>)
    requires db.Valid()
    modifies db
    ensures db.Valid()
    ensures CsvState(db.groups, db.units, db.nextId, inserted', results')
      == Commit(CsvState(old(db.groups), old(db.units), old(db.nextId), inserted, results), units, index)
    ensures db.requests == old(db.requests) && db.users == old(db.users) && db.sales == old(db.sales)
    ensures db.supplierInvoices == old(db.supplierInvoices) && db.settings == old(db.settings)
  {
    var ins := InsertResult(db.units, db.nextId, true);
    if |units| > 0 {
      InsertManyKeepsIndexes(db.units, db.nextId, units);
      ins := InsertMany(db.units, db.nextId, units);
    }
    db.units, db.nextId := ins.units, ins.nextId;
    if ins.ok {
      inserted', results' := inserted + |units|, results + [Inserted(index)];
    } else {
      inserted', results' := inserted, results + [InsertFailed(index)];
    }
  }

  /** The inner `for` loop: one unit per counted item, pushed in order. */
  method BuildUnits(p: ParsedRow, gid: Id, prefix: string, now: Time, i: nat, suffix: (nat, nat) -> string)
    returns (units: seq<InventoryUnit>)
    ensures units == Batch(p, gid, prefix, now, Suffixes(suffix, i, p.stockQty))
  {
    ghost var expected := Batch(p, gid, prefix, now, Suffixes(suffix, i, p.stockQty));
    units := [];
    var n := 0;
    while n < p.stockQty
      invariant 0 <= n <= p.stockQty
      invariant units == expected[..n]
    {
      var sku := UnitSku(prefix, p, suffix(i, n));
      units := units + [InventoryUnit(0, gid, sku, now, now, p.costPrice, ACTIVE, None, None, now)];
      n := n + 1;
    }
    assert units == expected;
  }

  // ------------------------------------------------------ parser properties

  /** Header names are trimmed and lower-cased: no ASCII capital, no whitespace at either end. */
  lemma HeaderNamesNormalised(line: string, i: nat)
    requires i < |Headers(line)|
    ensures var h := Headers(line)[i];
      (forall j :: 0 <= j < |h| ==> !('A' <= h[j] <= 'Z'))
      && (|h| > 0 ==> !IsSpace(h[0]) && !IsSpace(h[|h| - 1]))
  {
    var t := Trim(Split(line, ',')[i]);
    TrimShape(Split(line, ',')[i]);
    LowerKeepsSpaces(t);
  }

  /** After the visit, a name holds the cell of its last column. */
  lemma {:induction false} FillLookup(header: seq<string>, cols: seq<string>, k: nat, i: nat)
    requires i < k <= |header|
    requires forall j :: i < j < k ==> header[j] != header[i]
    ensures Fill(header, cols, k)[header[i]] == Cell(cols, i)
    decreases k
  {
    if k - 1 != i {
      FillLookup(header, cols, k - 1, i);
    }
  }

  /**
   * Each record has exactly the header names as keys, so cells beyond the
   * header are dropped; a column holds its trimmed cell, or '' when the
   * line is too short.
   */
  lemma RecordFields(text: string, r: nat, i: nat)
    requires r < |ParseCsv(text)|
    requires i < |Headers(Lines(text)[0])|
    requires forall j :: i < j < |Headers(Lines(text)[0])| ==> Headers(Lines(text)[0])[j] != Headers(Lines(text)[0])[i]
    ensures var header := Headers(Lines(text)[0]);
      var cols := Split(Lines(text)[r + 1], ',');
      ParseCsv(text)[r].Keys == (set j | 0 <= j < |header| :: header[j])
      && ParseCsv(text)[r][header[i]] == (if i < |cols| then Trim(cols[i]) else "")
  {
    var header := Headers(Lines(text)[0]);
    var cols := Split(Lines(text)[r + 1], ',');
    assert ParseCsv(text)[r] == Fill(header, cols, |header|);
    FillLookup(header, cols, |header|, i);
  }

  /** A text of a header line and one data line, already trimmed, parses to the one record of that line. */
  lemma TwoLines(header: string, line: string)
    requires '\n' !in header && '\n' !in line
    requires |header| > 0 && !IsSpace(header[0]) && header[|header| - 1] != '\r'
    requires |line| > 0 && !IsSpace(line[|line| - 1])
    ensures ParseCsv(header + "\n" + line)
      == [Fill(Headers(header), Split(line, ','), |Headers(header)|)]
  {
    LinesOfTwo(header, line);
    OneRecord(header + "\n" + line);
  }

  /** A text of two lines gives the one record of its second line. */
  lemma OneRecord(text: string)
    requires |Lines(text)| == 2
    ensures ParseCsv(text) == [Fill(Headers(Lines(text)[0]), Split(Lines(text)[1], ','), |Headers(Lines(text)[0])|)]
  {
  }

  lemma LinesOfTwo(header: string, line: string)
    requires '\n' !in header && '\n' !in line
    requires |header| > 0 && !IsSpace(header[0]) && header[|header| - 1] != '\r'
    requires |line| > 0 && !IsSpace(line[|line| - 1])
    ensures Lines(header + "\n" + line) == [header, line]
  {
    var text := header + "\n" + line;
    assert text[0] == header[0] && text[|text| - 1] == line[|line| - 1];
    TrimUnchanged(text);
    assert text == Join([header, line], "\n");
    SplitJoin([header, line], '\n');
    var lines := SplitLines(text);
    assert DropCR(header) == header;
    assert |lines| == 2 && lines[0] == header && lines[1] == line;
  }

  /** A cell the parser reads back unchanged: no comma, no newline, no whitespace at either end. */
  predicate PlainCell(s: string) {
    ',' !in s && '\n' !in s && (|s| > 0 ==> !IsSpace(s[0]) && !IsSpace(s[|s| - 1]))
  }

  /** A header name the parser reads back unchanged: a plain cell without upper-case letters. */
  predicate PlainName(s: string) {
    PlainCell(s) && forall j :: 0 <= j < |s| ==> !('A' <= s[j] <= 'Z')
  }

  /** Plain distinct names, joined by commas, are the header `parseCSV` reads. */
  lemma PlainHeaders(names: seq<string>)
    requires |names| >= 1
    requires forall i :: 0 <= i < |names| ==> PlainName(names[i])
    ensures Headers(Join(names, ",")) == names
  {
    SplitJoin(names, ',');
    forall i | 0 <= i < |names|
      ensures HeaderName(names[i]) == names[i]
    {
      TrimUnchanged(names[i]);
      ToLowerUnchanged(names[i]);
    }
  }

  /** Joined plain names and cells meet the conditions of `TwoLines`. */
  lemma JoinedLines(names: seq<string>, cells: seq<string>)
    requires |names| >= 1 && |cells| >= 1
    requires forall i :: 0 <= i < |names| ==> PlainName(names[i])
    requires forall i :: 0 <= i < |cells| ==> PlainCell(cells[i])
    requires names[0] != "" && names[|names| - 1] != "" && cells[|cells| - 1] != ""
    ensures var header, line := Join(names, ","), Join(cells, ",");
      '\n' !in header && '\n' !in line
      && |header| > 0 && !IsSpace(header[0]) && header[|header| - 1] != '\r'
      && |line| > 0 && !IsSpace(line[|line| - 1])
  {
    var header, line := Join(names, ","), Join(cells, ",");
    JoinAvoids(names, ",", '\n');
    JoinAvoids(cells, ",", '\n');
    JoinEnds(names, ",");
    JoinEnds(cells, ",");
    assert header[0] == names[0][0];
    assert line[|line| - 1] == cells[|cells| - 1][|cells[|cells| - 1]| - 1];
    assert header[|header| - 1] == names[|names| - 1][|names[|names| - 1]| - 1];
  }

  /**
   * A header line of plain distinct names and one line of as many plain
   * cells parse back to the one record that maps each name to its cell.
   */
  lemma PlainTable(names: seq<string>, cells: seq<string>)
    requires |names| == |cells| >= 1
    requires forall i :: 0 <= i < |names| ==> PlainName(names[i]) && PlainCell(cells[i])
    requires forall i, j :: 0 <= i < j < |names| ==> names[i] != names[j]
    requires names[0] != "" && names[|names| - 1] != "" && cells[|cells| - 1] != ""
    ensures var records := ParseCsv(Join(names, ",") + "\n" + Join(cells, ","));
      |records| == 1 && records[0].Keys == (set i | 0 <= i < |names| :: names[i])
      && forall i :: 0 <= i < |names| ==> records[0][names[i]] == cells[i]
  {
    JoinedLines(names, cells);
    TwoLines(Join(names, ","), Join(cells, ","));
    PlainHeaders(names);
    SplitJoin(cells, ',');
    forall i | 0 <= i < |names|
      ensures Fill(names, cells, |names|)[names[i]] == cells[i]
    {
      FillLookup(names, cells, |names|, i);
      TrimUnchanged(cells[i]);
    }
  }

  /** There is no quoting: a comma inside double quotes still splits the cell, and the extra cell is dropped. */
  lemma QuotedCommaSplits()
    ensures ParseCsv("note\n\"a,b\"") == [map["note" := "\"a"]]
  {
    NoteLines();
    OneRecord("note\n\"a,b\"");
    NoteHeader();
    QuotedCells();
    NoteFill();
  }

  lemma NoteLines()
    ensures Lines("note\n\"a,b\"") == ["note", "\"a,b\""]
  {
    LinesOfTwo("note", "\"a,b\"");
    assert "note\n\"a,b\"" == "note" + "\n" + "\"a,b\"";
  }

  lemma NoteFill()
    ensures Fill(["note"], ["\"a", "b\""], 1) == map["note" := "\"a"]
  {
    QuotedCells();
  }

  lemma NoteHeader()
    ensures Headers("note") == ["note"]
  {
    SplitWithout("note", ',');
    TrimUnchanged("note");
    ToLowerUnchanged("note");
  }

  lemma QuotedCells()
    ensures Split("\"a,b\"", ',') == ["\"a", "b\""] && Trim("\"a") == "\"a"
  {
    assert "\"a,b\"" == Join(["\"a", "b\""], ",");
    SplitJoin(["\"a", "b\""], ',');
    TrimUnchanged("\"a");
  }

  // ------------------------------------------------------ schema properties

  /** `RowSchema` accepts a row exactly when it meets every field condition, and keeps the cell values. */
  lemma ValidateConforms(row: Record)
    ensures Validate(row).Passed? <==> Conforms(row)
    ensures Validate(row).Passed? ==>
      var p := Validate(row).row;
      p.productName == row["product_name"] && p.sku == row["sku"] && p.category == row["category"]
      && p.costPrice == Coerced(row, CostPriceCol).r && p.sellingPrice == Coerced(row, SellingPriceCol).r
      && p.taxRate == Coerced(row, TaxRateCol).r && p.stockQty as real == Coerced(row, StockQtyCol).r
      && p.status == (if "status" in row then row["status"] else "ACTIVE")
  {
  }

  /** An empty cost cell is `Number('') == 0` and passes `min(0)`; a missing cost column does not. */
  lemma EmptyCostIsZero(row: Record)
    ensures "cost_price" in row && row["cost_price"] == "" ==> AmountIssues(row, CostPriceCol, false) == []
    ensures "cost_price" !in row ==> AmountIssues(row, CostPriceCol, false) == [NotANumber(CostPriceCol)]
  {
  }

  // --------------------------------------------------------- row properties

  /**
   * A valid row whose units all went in adds exactly `stock_qty` units, in
   * order, each ACTIVE, in the group of its ('Generic', category,
   * product_name, 1, 'piece', selling_price) identity, under the SKU
   * `ddmmyyyy-<sku>-<random>`; `inserted` grows by the unit count.
   */
  lemma InsertedRowAddsUnits(st: CsvState, c: Checked, i: nat, prefix: string, now: Time,
                             suffix: (nat, nat) -> string, r: CsvState)
    requires c.Passed?
    requires r == CsvRow(st, c, i, prefix, now, suffix)
    requires r.results[|r.results| - 1].Inserted?
    ensures |r.units| == |st.units| + c.row.stockQty && r.units[..|st.units|] == st.units
    ensures r.inserted == st.inserted + c.row.stockQty
    ensures exists g :: (g in r.groups && KeyOf(g) == RowKey(c.row)
      && forall n :: 0 <= n < c.row.stockQty ==>
           r.units[|st.units|..][n].productGroupId == g.id
           && r.units[|st.units|..][n].status == ACTIVE
           && r.units[|st.units|..][n].sku == UnitSku(prefix, c.row, suffix(i, n)))
  {
    var p := c.row;
    var up := InventoryImport.Upsert(st.groups, st.nextId, RowKey(p), DefaultLowStockThreshold, now);
    var group, nextId := up.1, up.2;
    var batch := Batch(p, group.id, prefix, now, Suffixes(suffix, i, p.stockQty));
    assert r == Commit(st.(groups := up.0, nextId := nextId), batch, i + 2);
    if |batch| > 0 {
      InsertManyAppends(st.units, nextId, batch);
    }
    assert r.units[..|st.units|] == st.units;
    var added := r.units[|st.units|..];
    forall n | 0 <= n < p.stockQty
      ensures added[n].productGroupId == group.id && added[n].status == ACTIVE
      ensures added[n].sku == UnitSku(prefix, p, suffix(i, n))
    {
      assert added[n] == batch[n].(id := nextId + n);
    }
    assert group in r.groups && KeyOf(group) == RowKey(p);
  }

  /** A successful `insertMany` appends the batch itself, with fresh ids and nothing else changed. */
  lemma {:induction false} InsertManyAppends(units: seq<InventoryUnit>, nextId: nat, batch: seq<InventoryUnit>)
    requires InsertMany(units, nextId, batch).ok
    ensures var r := InsertMany(units, nextId, batch).units;
      forall n :: 0 <= n < |batch| ==> r[|units| + n] == batch[n].(id := nextId + n)
    decreases |batch|
  {
    if batch != [] {
      var u := units + [batch[0].(id := nextId)];
      InsertManyAppends(u, nextId + 1, batch[1..]);
      var r := InsertMany(units, nextId, batch).units;
      assert r == InsertMany(u, nextId + 1, batch[1..]).units;
      forall n | 0 <= n < |batch|
        ensures r[|units| + n] == batch[n].(id := nextId + n)
      {
        if n == 0 {
          assert u <= r;
          assert r[|units|] == u[|units|];
        } else {
          assert r[|u| + (n - 1)] == batch[1..][n - 1].(id := nextId + 1 + (n - 1));
        }
      }
    }
  }

  /**
   * The row's status column plays no part: whatever it says (INACTIVE
   * included), every unit a row adds is ACTIVE.
   */
  lemma CreatedUnitsActive(st: CsvState, c: Checked, i: nat, prefix: string, now: Time,
                           suffix: (nat, nat) -> string, r: CsvState)
    requires r == CsvRow(st, c, i, prefix, now, suffix)
    ensures forall k :: |st.units| <= k < |r.units| ==> r.units[k].status == ACTIVE
  {
    if c.Passed? {
      var p := c.row;
      var (groups, group, nextId) := InventoryImport.Upsert(st.groups, st.nextId, RowKey(p), DefaultLowStockThreshold, now);
      var batch := Batch(p, group.id, prefix, now, Suffixes(suffix, i, p.stockQty));
      assert r == Commit(st.(groups := groups, nextId := nextId), batch, i + 2);
      if |batch| > 0 {
        InsertManyActive(st.units, nextId, batch);
        assert r.units == InsertMany(st.units, nextId, batch).units;
      }
    }
  }

  lemma {:induction false} InsertManyActive(units: seq<InventoryUnit>, nextId: nat, batch: seq<InventoryUnit>)
    requires forall n :: 0 <= n < |batch| ==> batch[n].status == ACTIVE
    ensures var r := InsertMany(units, nextId, batch).units;
      forall k :: |units| <= k < |r| ==> r[k].status == ACTIVE
    decreases |batch|
  {
    if batch != [] && !InventoryImport.SkuTaken(units, batch[0].sku) {
      var u := units + [batch[0].(id := nextId)];
      InsertManyActive(u, nextId + 1, batch[1..]);
      var r := InsertMany(units, nextId, batch).units;
      assert r == InsertMany(u, nextId + 1, batch[1..]).units;
      assert u <= r;
      forall k | |units| <= k < |r|
        ensures r[k].status == ACTIVE
      {
        if k == |units| {
          assert r[k] == u[k] == batch[0].(id := nextId);
        }
      }
    }
  }

  /**
   * The counters, from the empty start of the handler: every row adds one
   * result, numbered with its line in the sheet (row position + 2);
   * `inserted` counts units, not rows, and equals the units added unless a
   * batch failed part-way, when it undercounts.
   */
  lemma RunCounters(st: CsvState, checks: seq<Checked>, k: nat, prefix: string, now: Time,
                     suffix: (nat, nat) -> string, r: CsvState)
    requires k <= |checks|
    requires st.inserted == 0 && st.results == []
    requires r == RunCsv(st, checks, k, prefix, now, suffix)
    ensures |r.results| == k
    ensures forall j :: 0 <= j < k ==> r.results[j].index == j + 2
    ensures |r.units| - |st.units| >= r.inserted
    ensures (forall j :: 0 <= j < k ==> !r.results[j].InsertFailed?) ==> |r.units| - |st.units| == r.inserted
  {
    RunCounted(st, checks, k, prefix, now, suffix);
  }

  lemma {:induction false} RunCounted(st: CsvState, checks: seq<Checked>, k: nat, prefix: string, now: Time,
                                      suffix: (nat, nat) -> string)
    requires k <= |checks|
    requires st.inserted == 0 && st.results == []
    ensures Counted(st, RunCsv(st, checks, k, prefix, now, suffix), k)
    decreases k
  {
    if k > 0 {
      RunCounted(st, checks, k - 1, prefix, now, suffix);
      CountedStep(st, RunCsv(st, checks, k - 1, prefix, now, suffix), checks[k - 1], k - 1, prefix, now, suffix);
    }
  }

  /** One more row keeps the counters. */
  lemma CountedStep(st: CsvState, p: CsvState, c: Checked, i: nat, prefix: string, now: Time,
                    suffix: (nat, nat) -> string)
    requires Counted(st, p, i)
    ensures Counted(st, CsvRow(p, c, i, prefix, now, suffix), i + 1)
  {
    var r := CsvRow(p, c, i, prefix, now, suffix);
    RowCounters(p, c, i, prefix, now, suffix, r);
    ChainCounters(st, p, r, i + 1);
  }

  /** The counters after `k` rows, from a start without results. */
  predicate Counted(st: CsvState, r: CsvState, k: nat) {
    |r.results| == k
    && (forall j :: 0 <= j < k ==> r.results[j].index == j + 2)
    && |r.units| - |st.units| >= r.inserted
    && ((forall j :: 0 <= j < k ==> !r.results[j].InsertFailed?) ==> |r.units| - |st.units| == r.inserted)
  }

  /** What one row does to the counters. */
  predicate RowStep(st: CsvState, r: CsvState, i: nat) {
    |r.results| == |st.results| + 1 && r.results == st.results + [r.results[|st.results|]]
    && r.results[|st.results|].index == i + 2
    && r.inserted >= st.inserted && |r.units| - |st.units| >= r.inserted - st.inserted
    && (!r.results[|st.results|].InsertFailed? ==> |r.units| - |st.units| == r.inserted - st.inserted)
  }

  lemma ChainCounters(st: CsvState, p: CsvState, r: CsvState, k: nat)
    requires k > 0 && Counted(st, p, k - 1) && RowStep(p, r, k - 1)
    ensures Counted(st, r, k)
  {
    forall j | 0 <= j < k
      ensures r.results[j].index == j + 2
    {
      if j < k - 1 {
        assert r.results[j] == p.results[j];
      }
    }
    if forall j :: 0 <= j < k ==> !r.results[j].InsertFailed? {
      assert forall j :: 0 <= j < k - 1 ==> r.results[j] == p.results[j];
    }
  }

  /** One row adds one result, numbered `i + 2`, and at least as many units as it counts. */
  lemma RowCounters(st: CsvState, c: Checked, i: nat, prefix: string, now: Time, suffix: (nat, nat) -> string, r: CsvState)
    requires r == CsvRow(st, c, i, prefix, now, suffix)
    ensures RowStep(st, r, i)
  {
    if c.Passed? {
      var p := c.row;
      var (groups, group, nextId) := InventoryImport.Upsert(st.groups, st.nextId, RowKey(p), DefaultLowStockThreshold, now);
      var batch := Batch(p, group.id, prefix, now, Suffixes(suffix, i, p.stockQty));
      assert r == Commit(st.(groups := groups, nextId := nextId), batch, i + 2);
    }
    assert r.results[..|st.results|] == st.results;
  }

  /** `summary.errors` counts the rows whose result is not an insertion. */
  lemma {:induction false} ErrorCountAppend(results: seq<RowResult>, x: RowResult)
    ensures ErrorCount(results + [x]) == ErrorCount(results) + (if x.Inserted? then 0 else 1)
  {
    assert (results + [x])[..|results|] == results;
  }

  /** A valid row reuses a stored group with its identity, and otherwise creates it with threshold 10. */
  lemma RowGroup(st: CsvState, c: Checked, i: nat, prefix: string, now: Time, suffix: (nat, nat) -> string)
    requires c.Passed?
    ensures var r := CsvRow(st, c, i, prefix, now, suffix);
      InventoryImport.FindGroup(st.groups, RowKey(c.row)).Some? ==> r.groups == st.groups
    ensures var r := CsvRow(st, c, i, prefix, now, suffix);
      InventoryImport.FindGroup(st.groups, RowKey(c.row)).None? ==>
        |r.groups| == |st.groups| + 1 && r.groups[..|st.groups|] == st.groups
        && KeyOf(r.groups[|st.groups|]) == RowKey(c.row)
        && r.groups[|st.groups|].lowStockThreshold == Some(10.0)
  {
    var r := CsvRow(st, c, i, prefix, now, suffix);
    if InventoryImport.FindGroup(st.groups, RowKey(c.row)).None? {
      assert r.groups[..|st.groups|] == st.groups;
    }
  }

  /** `insertMany` never stores a SKU twice, and gives each unit a fresh id. */
  lemma {:induction false} InsertManyKeepsIndexes(units: seq<InventoryUnit>, nextId: nat, batch: seq<InventoryUnit>)
    requires Distinct(units, Sku) && Distinct(units, UnitId)
    requires forall k :: 0 <= k < |units| ==> units[k].id < nextId
    ensures var r := InsertMany(units, nextId, batch);
      Distinct(r.units, Sku) && Distinct(r.units, UnitId) && forall k :: 0 <= k < |r.units| ==> r.units[k].id < r.nextId
    decreases |batch|
  {
    if batch != [] && !InventoryImport.SkuTaken(units, batch[0].sku) {
      var u := batch[0].(id := nextId);
      DistinctAppend(units, Sku, u);
      DistinctAppend(units, UnitId, u);
      InsertManyKeepsIndexes(units + [u], nextId + 1, batch[1..]);
    }
  }
}
