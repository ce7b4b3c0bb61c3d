# SalonCapp back office, modelled in Dafny

This project models the bookkeeping core of SalonCapp, a salon back-office
web application. Its route handlers keep inventory units, product groups,
procurement requests, supplier invoices, sales invoices, users and a settings
singleton in a document database, and a few React components hold pure
helpers and local state. The model covers:

- FIFO consumption of stock: earliest expiry first, then earliest stocked.
- The catalog and stock views: group find-or-create, stock counts, the
  dashboard's low-stock and expiry lists, the stock-status label, the unit
  listing and the audit page's status update.
- The import and export codecs: the naive CSV parser, row validation, SKU
  construction, the per-row results and counters, and the quoting CSV writer.
- The procurement lifecycle: request creation on the server and in the form,
  the status enum, the actions each status allows, the receive-form guards
  and the scripted lifecycle of the debug route.
- The settings policy: FIFO mode that cannot be switched off, the business and
  working-hours schemas, and the defaults.
- Sales invoices: line totals, subtotal, tax, total, the invoice number, and
  the sales form's item list.
- User administration: create, selective update, password reset, the admin
  seed at connect time, and the panel's search.
- Small helpers: the `.env` line reader and the invoice-download containment
  check, content type and disposition.

The database is one `Db.Store` object holding a sequence per collection. Its
`Valid()` invariant holds the schemas' unique indexes, fresh ids below
`nextId`, and FIFO mode on in the stored settings. Each route handler is a
method on the store. Its `ensures` ties the new store and the reply to a pure
outcome function of the old store. The route's promises are then proved as
lemmas about that function. React components with state are classes whose
fields are the component's state. The pure helpers are functions.

JavaScript values that reach a handler (request bodies, CSV cells) are the
datatype `Js.Val`. `Js.JsNumber` is a JavaScript number: `NaN` or a real.
Sessions, the clock, `Math.random`, bcrypt, zod's email and URL checks and
the file system are parameters of the members that use them.

## Model

| member | source | states |
|---|---|---|
| Js.ToNumber | saloncapp/src/app/api/procurement/route.ts:48 | `Number(v)` is NaN exactly for undefined and unparsable text; a number is kept, null, false and blank text give 0, true gives 1 |
| Js.ToLower | src/app/dashboard/settings/UserManagement.tsx:148-149 | lower-casing keeps the length and maps each character on its own (ASCII letters only) |
| Js.ToUpper | src/app/api/inventory/import/route.ts:90 | upper-casing keeps the length and maps each character on its own (ASCII letters only) |
| Models.ParseUnitStatus | saloncapp/src/models/InventoryUnit.ts:9-13 | only the three enum names are accepted, each as the status of that name |
| Models.UnitStatusRoundTrip | saloncapp/src/models/InventoryUnit.ts:9-13 | every status's name is accepted back as that status |
| Models.NewUnit | saloncapp/src/models/InventoryUnit.ts:3-16 | a unit is built exactly when productGroupId, a non-empty sku, expiryDate and costPrice are given; stockedDate defaults to now and status to ACTIVE; consumedAt and consumedReason start unset |
| Models.ThresholdNotInKey | saloncapp/src/models/ProductGroup.ts:10-14 | two groups that differ only in lowStockThreshold have the same unique-index key |
| Models.ParsePurpose | src/models/ProcurementRequest.ts:5 | RETAIL and INHOUSE are accepted as themselves, and every other text is refused |
| Models.ParseRequestStatus | src/models/ProcurementRequest.ts:12-16 | only the four status names are accepted, each as the status of that name |
| Models.RequestStatusRoundTrip | src/models/ProcurementRequest.ts:12-16 | every status's name is accepted back as that status |
| Models.NewRequest | src/models/ProcurementRequest.ts:3-18 | a request is built exactly when group, a valid purpose, requestedQty and createdBy are given; it starts PENDING with approvedQty and receivedQty 0, and the optional fields are copied |
| Models.NewUser | src/models/User.ts:3-13 | a user is built exactly when name, email and password are non-empty and any role given is in the enum; role defaults to STAFF and isActive to true |
| Models.DefaultSettings | src/models/Settings.ts:70-136 | every section of the all-defaults document: the business defaults with the rupee sign as currency, hours 09:00 to 21:00 with Sunday off, FIFO mode on with a low-stock threshold of 10 and expiry alerts 30 days ahead, and the procurement, alert, permission, UI and security defaults |
| Models.CurrencyMisencoded | src/models/Settings.ts:84 | the currency default as written is three characters: the UTF-8 bytes of the rupee sign read as Windows-1252, not the rupee sign |
| Models.DefaultCurrencyIsRupee | src/models/Settings.ts:84 | the corrected default currency is the single rupee sign, and the business defaults differ from the ones as written in the currency alone |
| Ordering.SortByKey | src/app/api/inventory/units/route.ts:14 | the result is a permutation of the input sorted ascending on the two-part key |
| Ordering.Take | src/app/api/inventory/consume-fifo/route.ts:27 | `.limit(n)` keeps a prefix of length n, or the whole sequence when it is shorter |
| Ordering.TakeIsSmallest | src/app/api/inventory/consume-fifo/route.ts:26-27 | in a sorted sequence, no element kept by `.limit(n)` has a larger key than an element left out |
| Ordering.SortedMembership | src/app/api/inventory/units/route.ts:14 | sorting neither adds nor drops an element |
| ConsumeFifo.ActiveOf | src/app/api/inventory/consume-fifo/route.ts:22-25 | the query returns exactly the stored units of the group whose status is ACTIVE |
| ConsumeFifo.Ids | src/app/api/inventory/consume-fifo/route.ts:35 | the id list has one entry per selected unit, in order |
| ConsumeFifo.MarkConsumed | src/app/api/inventory/consume-fifo/route.ts:38-47 | the collection keeps its length and order; a unit whose id was selected becomes CONSUMED with consumedAt and the reason set, and every other unit is unchanged |
| ConsumeFifo.Post | src/app/api/inventory/consume-fifo/route.ts:7-58 | the new units and the reply are those of the outcome function, every other collection is unchanged, and the store invariant is kept |
| ConsumeFifo.Outcome | src/app/api/inventory/consume-fifo/route.ts:7-58 | the number of units never changes; a refusal writes nothing; a success needs a session, a group id that casts to an ObjectId and a positive quantity, and reports the selected ids |
| ConsumeFifo.RejectionChangesNothing | src/app/api/inventory/consume-fifo/route.ts:9-33 | every refusal leaves all units as they were |
| ConsumeFifo.NoSessionIsUnauthorized | src/app/api/inventory/consume-fifo/route.ts:9-12 | without a session the reply is 401 and nothing changes |
| ConsumeFifo.BadParametersRejected | src/app/api/inventory/consume-fifo/route.ts:17-19 | a missing group id or a quantity of zero or less is a 400, whatever the stock |
| ConsumeFifo.UncastableGroupFails | src/app/api/inventory/consume-fifo/route.ts:17-57 | a truthy group id that is not an ObjectId, with a positive quantity, passes the guard; the query's cast throws and the catch answers 500 with the CastError message, writing nothing |
| ConsumeFifo.SelectionIsStock | src/app/api/inventory/consume-fifo/route.ts:22-27 | the selection holds min(quantity, stock) units, all ACTIVE units of that group |
| ConsumeFifo.Select | src/app/api/inventory/consume-fifo/route.ts:22-27 | at most the requested number of units, in FIFO order |
| ConsumeFifo.SelectionIsEarliest | src/app/api/inventory/consume-fifo/route.ts:26-27 | every selected unit's (expiry, stocked) key is no greater than that of any unselected ACTIVE unit of the group |
| ConsumeFifo.InsufficientStockReported | src/app/api/inventory/consume-fifo/route.ts:29-33 | with less stock than asked for, the reply is 400 naming the requested and available counts, and nothing changes |
| ConsumeFifo.SufficientStockSucceeds | src/app/api/inventory/consume-fifo/route.ts:29-33 | with enough stock, the call succeeds |
| ConsumeFifo.ConsumedUnits | src/app/api/inventory/consume-fifo/route.ts:38-47 | on success, each selected unit becomes CONSUMED at `now` with the reason or 'SALES', and every other unit is unchanged |
| ConsumeFifo.ConsumeLowersStockByQuantity | src/app/api/inventory/consume-fifo/route.ts:49-53 | on success, consumedCount and the id list both equal the quantity, and the group's stock falls by exactly that much |
| ConsumeFifo.ConsumedPrecedeRemaining | src/app/api/inventory/consume-fifo/route.ts:26-27 | after a consumption, every consumed unit's key is no greater than the key of every unit of the group still ACTIVE |
| UnitsRoute.List | src/app/api/inventory/units/route.ts:9-15 | 401 exactly without a session; otherwise 200 with a permutation of all units sorted by (expiry, stocked) |
| UnitsRoute.EveryStatusListed | src/app/api/inventory/units/route.ts:14 | every stored unit is listed, whatever its status |
| Products.MinExpiry | saloncapp/src/app/api/products/route.ts:27 | null exactly for no units; otherwise an expiry date of one of the units that is no later than any of theirs |
| Products.Summarize | saloncapp/src/app/api/products/route.ts:12-29 | one summary per group, in input order, whose totalStock is the group's ACTIVE count and whose earliestExpiry is the minimum over those units |
| Products.ListingProperties | saloncapp/src/app/api/products/route.ts:12-35 | every group is listed once with its ACTIVE count, and the list is ordered by createdAt descending |
| Products.EmptyGroupListed | saloncapp/src/app/api/products/route.ts:12-24 | a group without ACTIVE units is still listed, with stock 0 and no earliest expiry (a left join) |
| Products.BuildGroup | saloncapp/src/models/ProductGroup.ts:3-11 | a group is built exactly when the three names cast to non-empty texts, quantityPerItem and sellingPrice cast to numbers, the unit is ml, g or piece and the threshold casts; it then stores those cast values, the given id and time; an absent lowStockThreshold becomes 10, a null or '' one is stored as null, a number is kept |
| Products.Create | saloncapp/src/app/api/products/route.ts:44-61 | the new groups and the reply are those of the outcome function; only the groups and nextId change, and the store invariant is kept |
| Products.CreateKeepsKeysUnique | saloncapp/src/models/ProductGroup.ts:14 | a create never puts two groups with the same six-field key in the store |
| Products.DuplicateRejected | saloncapp/src/app/api/products/route.ts:56-58 | a body whose key is already stored gets 400 'Product Group already exists', and no group is added |
| Products.FreshKeyCreated | saloncapp/src/app/api/products/route.ts:52-54 | a valid body with a new key appends exactly that group and replies 201 |
| Products.BadMeasureRejected | saloncapp/src/models/ProductGroup.ts:8 | a unit other than ml, g or piece fails validation |
| Products.EmptyNameRejected | saloncapp/src/models/ProductGroup.ts:4-6 | an empty brand, sub-category or product name fails the required validator |
| Audit.WithStatus | src/app/dashboard/inventory/audit/page.tsx:37 | the list keeps its length and order; units with that id take the new status, and every other unit is unchanged |
| Audit.AuditPage.constructor | src/app/dashboard/inventory/audit/page.tsx:28-41 | the page starts with no units and no error |
| Audit.AuditPage.MarkStatus | src/app/dashboard/inventory/audit/page.tsx:28-41 | an ok reply patches the list; a failed one keeps the list and shows the server's message or 'Failed to update status' |
| Audit.OnlyStatusChanges | src/app/dashboard/inventory/audit/page.tsx:37 | the patched unit keeps its id, its sku and every field other than status |
| Audit.AnyTransitionAllowed | src/app/dashboard/inventory/audit/page.tsx:28 | any status may be set after any other, with no transition check; the last one set wins |
| ProductCard.GetStockStatus | src/components/inventory/ProductList.tsx:58-64 | Out of Stock exactly when the count is 0; Low Stock exactly when it is non-zero and at most the threshold; In Stock exactly when it is above the threshold; a null threshold compares as 0 |
| ProductCard.LabelsDistinct | src/components/inventory/ProductList.tsx:58-62 | the three labels differ, so each pair gets exactly one label |
| ProductCard.Card.constructor | src/components/inventory/ProductList.tsx:27-28 | the card starts collapsed with no units |
| ProductCard.Card.ToggleExpand | src/components/inventory/ProductList.tsx:45-50 | the card flips its state, and fetches units exactly when it is being opened with none loaded |
| ProductCard.Card.HandleConsume | src/components/inventory/ProductList.tsx:66-81 | a confirmed consume sends the unit with reason MANUAL_CONSUMPTION and then reloads the units; a declined one sends nothing |
| DashboardStats.PendingCount | src/app/api/dashboard/stats/route.ts:22 | the count is at most the number of requests, and is 0 exactly when none is PENDING |
| DashboardStats.ExpiredCount | src/app/api/dashboard/stats/route.ts:27-30 | the count is at most the number of units, and is 0 exactly when no ACTIVE unit has expiryDate < now |
| DashboardStats.LowStockRows | src/app/api/dashboard/stats/route.ts:34-56 | every low group (a set threshold at least its ACTIVE count) gives its row, and every row is the projection of a low group, carrying that count; at most one row per group |
| DashboardStats.LowPositions | src/app/api/dashboard/stats/route.ts:53 | the positions listed are increasing, each holds a low group, and every low group's position is listed |
| DashboardStats.LowStockRowsExact | src/app/api/dashboard/stats/route.ts:34-56 | the k-th row is the projection of the group at the k-th low position: one row per low group, in the collection's order |
| DashboardStats.ExpiringOf | src/app/api/dashboard/stats/route.ts:62-65 | a unit is selected exactly when it is ACTIVE with now ≤ expiry ≤ now + 30 days |
| DashboardStats.Get | src/app/api/dashboard/stats/route.ts:9-81 | 401 exactly without a session; otherwise 200 with totalProducts the number of groups, each other counter bounded by its collection, at most 5 alerts and at most 10 expiring units |
| DashboardStats.PopulateNames | src/app/api/dashboard/stats/route.ts:62-68 | each listed unit is kept in order, with its group's name when a group has its id and null exactly when none has |
| DashboardStats.NoSessionUnauthorized | src/app/api/dashboard/stats/route.ts:11-14 | without a session the reply is 401 |
| DashboardStats.DashboardShape | src/app/api/dashboard/stats/route.ts:59-80 | stats.lowStock is the number of low groups and totalProducts the number of groups; the alert list is the first min(5, n) of the n low-stock rows; expiringSoon holds min(10, m) of the m window units, sorted by expiry, and no window unit left out expires before a listed one; each listed name is that of the unit's group |
| DashboardStats.EmptyGroupIsLow | src/app/api/dashboard/stats/route.ts:53 | a group with no ACTIVE units and a set, non-negative threshold is low stock |
| DashboardStats.ClearedThresholdNeverLow | src/app/api/dashboard/stats/route.ts:53 | a group created with lowStockThreshold '' stores null and is never low stock, whatever its stock |
| DashboardStats.ExpiredNotExpiringSoon | src/app/api/dashboard/stats/route.ts:29 | no unit is both counted as expired (expiry < now) and listed as expiring soon (expiry ≥ now) |
| DashboardStats.MarkedExpiredCountsNowhere | src/app/api/dashboard/stats/route.ts:27-30 | units already marked EXPIRED are counted in neither the expired count nor the expiring list |
| InventoryImport.FindGroup | src/app/api/inventory/import/route.ts:42-50 | the index found holds a group with exactly that six-field key, and no index is found only when no group has it |
| InventoryImport.Upsert | src/app/api/inventory/import/route.ts:42-63 | an existing group is returned with the collection unchanged; otherwise a new group with the key, the next id and the row's threshold is appended |
| InventoryImport.UnitFor | src/app/api/inventory/import/route.ts:66-108 | a unit created for a row is ACTIVE, belongs to the row's group, takes the next id and uses a SKU not yet stored |
| InventoryImport.Post | src/app/api/inventory/import/route.ts:8-128 | the store stays valid; 401 unless ADMIN or MANAGER, 400 for a missing or empty item list (neither writes anything); otherwise the groups, units and reply are those of running the rows in order from empty counters |
| InventoryImport.ImportRows | src/app/api/inventory/import/route.ts:23-116 | the loop keeps the store valid and ends in the state of running every row in order from empty counters, touching no other collection |
| InventoryImport.RunRowsGrows | src/app/api/inventory/import/route.ts:26-115 | running rows only appends: earlier groups, units and errors stay as a prefix, and the next id and the count never fall |
| InventoryImport.ImportRow | src/app/api/inventory/import/route.ts:27-115 | one loop iteration changes the stored groups and units and the accumulators exactly as the row step says |
| InventoryImport.EveryRowAccounted | src/app/api/inventory/import/route.ts:26-115 | each row adds exactly one to importedCount or to the errors, and the units added equal importedCount |
| InventoryImport.RowStep | src/app/api/inventory/import/route.ts:26-115 | a row either appends exactly one unit and counts it, or appends exactly one error and adds no unit; one failure does not stop the loop |
| InventoryImport.MissingFieldsWriteNothing | src/app/api/inventory/import/route.ts:36-38 | a row missing an identity field records 'Row n: Missing required product fields ...' and writes nothing |
| InventoryImport.FalsyQuantityIsMissing | src/app/api/inventory/import/route.ts:32-36 | a quantity per item that is 0 or NaN counts as a missing identity field |
| InventoryImport.PascalCaseFirst | src/app/api/inventory/import/route.ts:29-34 | a truthy PascalCase column is read; otherwise the camelCase one is |
| InventoryImport.ExistingGroupReused | src/app/api/inventory/import/route.ts:42-63 | a row whose key is already stored leaves the groups unchanged, its threshold included |
| InventoryImport.GroupCreatedBeforeCostCheck | src/app/api/inventory/import/route.ts:42-71 | a row with a new key and no cost price still adds its group, but no unit |
| InventoryImport.ExistingSkuRejected | src/app/api/inventory/import/route.ts:93-98 | a supplied SKU that is already stored is the row error 'SKU … already exists', and no unit is added |
| InventoryImport.NonTextBrandBareMessage | src/app/api/inventory/import/route.ts:88-90 | a row without a SKU whose brand is not text records the TypeError's own message, 'brandName.substring is not a function', not prefixed with 'Row n:', and adds no unit |
| InventoryImport.GeneratedSku | src/app/api/inventory/import/route.ts:88-92 | a generated SKU is a prefix of at most four characters, none of them whitespace or a lower-case letter, then '-' and the suffix |
| InventoryImport.RowsKeepIndexes | src/app/api/inventory/import/route.ts:26-116 | the loop keeps SKUs, unit ids, group keys and group ids distinct, all below the next id |
| InventoryImport.RowKeepsUnitIndexes | src/app/api/inventory/import/route.ts:87-108 | a row adds a unit only under a SKU and an id that are not yet stored |
| InventoryImport.RowKeepsGroupIndexes | src/app/api/inventory/import/route.ts:42-63 | a row creates a group only for a key and an id that are not yet stored |
| CsvImport.Headers | src/app/api/import/products/route.ts:23 | one header name per comma-separated cell of the first line |
| CsvImport.Fill | src/app/api/import/products/route.ts:26-30 | a record's keys are exactly the header names |
| CsvImport.ParseCsv | src/app/api/import/products/route.ts:21-32 | one record per line after the header |
| CsvImport.Validate | src/app/api/import/products/route.ts:10-19 | a rejected row always carries at least one issue |
| CsvImport.Issues | src/app/api/import/products/route.ts:10-19 | no issue exactly when the row meets every column's rule; a missing product_name is the first issue |
| CsvImport.InsertMany | src/app/api/import/products/route.ts:111 | an ordered insert keeps the stored units as a prefix, gives one fresh id per unit added, and adds the whole batch exactly when it succeeds |
| CsvImport.Post | src/app/api/import/products/route.ts:34-125 | the store stays valid; 403 unless ADMIN, 400 for a missing file or an unsupported extension (none writes anything); otherwise the store and the summary are those of running every row from empty counters |
| CsvImport.ImportRows | src/app/api/import/products/route.ts:63-120 | the row loop leaves the store and both accumulators as running the rows in order says |
| CsvImport.RunCsv | src/app/api/import/products/route.ts:63-120 | running rows only appends groups, units and results, and never lowers the next id or the inserted count |
| CsvImport.ImportCsvRow | src/app/api/import/products/route.ts:67-119 | one iteration: a rejected row records its issues at line i+2 and writes nothing; a valid one upserts its group and inserts its units |
| CsvImport.FindOrCreateGroup | src/app/api/import/products/route.ts:78-87 | the upsert returns the stored group of that identity, or appends one with threshold 10 |
| CsvImport.InsertUnits | src/app/api/import/products/route.ts:110-115 | the batch is inserted only when non-empty; the row counts as inserted, with its units, only when the insert went through |
| CsvImport.BuildUnits | src/app/api/import/products/route.ts:96-108 | one unit per counted item, in order, ACTIVE, with SKU ddmmyyyy-sku-random and the row's cost |
| CsvImport.HeaderNamesNormalised | src/app/api/import/products/route.ts:23 | a header name has no ASCII capital and no whitespace at either end |
| CsvImport.FillLookup | src/app/api/import/products/route.ts:27-29 | a repeated header name keeps the cell of its last column |
| CsvImport.RecordFields | src/app/api/import/products/route.ts:21-32 | each record has exactly the header names as keys; a column holds its trimmed cell, or '' when the line is too short |
| CsvImport.TwoLines | src/app/api/import/products/route.ts:22-24 | a header line and one data line parse to the single record of that line |
| CsvImport.PlainTable | src/app/api/import/products/route.ts:21-32 | joining distinct plain names and plain cells with commas parses back to the record mapping each name to its cell |
| CsvImport.QuotedCommaSplits | src/app/api/import/products/route.ts:24 | there is no quoting: a comma inside double quotes splits the cell |
| CsvImport.ValidateConforms | src/app/api/import/products/route.ts:10-19 | a row passes exactly when every field condition holds, and the parsed row keeps the cell values, status defaulting to ACTIVE |
| CsvImport.EmptyCostIsZero | src/app/api/import/products/route.ts:14 | an empty cost cell coerces to 0 and passes; a missing cost column is not a number |
| CsvImport.InsertedRowAddsUnits | src/app/api/import/products/route.ts:78-115 | an inserted row adds exactly stock_qty units after the stored ones, each ACTIVE, in the group of its identity, with its SKU; inserted grows by that count |
| CsvImport.InsertManyAppends | src/app/api/import/products/route.ts:111 | a successful insert appends the batch itself with consecutive fresh ids |
| CsvImport.CreatedUnitsActive | src/app/api/import/products/route.ts:106 | whatever the status column says, every unit a row adds is ACTIVE |
| CsvImport.RunCounters | src/app/api/import/products/route.ts:63-120 | one result per row, numbered row+2; inserted counts units and equals the units added unless an insert failed part-way |
| CsvImport.ErrorCountAppend | src/app/api/import/products/route.ts:123 | the error count grows by one exactly for a result that is not an insert |
| CsvImport.RowGroup | src/app/api/import/products/route.ts:78-87 | a stored identity is reused without change; otherwise one group with that identity and threshold 10 is appended |
| CsvImport.InsertManyKeepsIndexes | src/app/api/import/products/route.ts:111 | inserting never stores a SKU or an id twice, and every id stays below the next one |
| CsvWriter.Format | saloncapp/src/app/api/export/inventory/route.ts:44 | an absent or empty format parameter means csv; any other value is kept |
| CsvWriter.UnescapeEscape | saloncapp/src/app/api/export/inventory/route.ts:24-27 | reading the doubled quotes of an escaped string back gives the string |
| CsvWriter.EscapeUnescape | saloncapp/src/app/api/export/inventory/route.ts:26 | whatever reads back was escaped: every quote in it is doubled |
| CsvWriter.QuotedField | saloncapp/src/app/api/export/inventory/route.ts:25-28 | a string field is its escaped text between two quotes, and that text reads back as the string |
| CsvWriter.FieldAvoids | saloncapp/src/app/api/export/inventory/route.ts:24-29 | a field holds a newline or a comma only when its string value does |
| CsvWriter.LineAvoids | saloncapp/src/app/api/export/inventory/route.ts:21-32 | a line holds no newline unless one of its string values does |
| CsvWriter.CsvLines | saloncapp/src/app/api/export/inventory/route.ts:33 | with no newline in a header or a string value, the text is the header line and then exactly one line per row, in order |
| CsvWriter.LineFields | saloncapp/src/app/api/export/inventory/route.ts:22-31 | with no comma in a string value, a line splits into one encoded field per header |
| ImportTemplate.Get | src/app/api/import-template/products/route.ts:15-60 | xlsx gives a header-only sheet named Products; any other format the CSV text; each with its content type, file name and no-store |
| ImportTemplate.CsvByDefault | src/app/api/import-template/products/route.ts:18 | without a format, or with an empty one, the CSV template is sent |
| ImportTemplate.TemplateLines | src/app/api/import-template/products/route.ts:37-52 | the template is the header line, a newline and the sample row, eight cells each |
| ImportTemplate.TemplateColumns | src/app/api/import-template/products/route.ts:4-13 | the template's headers are exactly the columns the product import reads |
| ImportTemplate.TemplateParses | src/app/api/import-template/products/route.ts:37-52 | the product import reads the template as one record holding each sample cell under its header |
| ImportTemplate.SampleValues | src/app/api/import-template/products/route.ts:42-51 | that record's product_name, sku and status are the sample's |
| ImportTemplate.SampleAccepted | src/app/api/import-template/products/route.ts:46-49 | the sample row passes the import schema, its empty prices as 0 and its stock quantity 0 |
| InventoryExport.Get | saloncapp/src/app/api/export/inventory/route.ts:36-89 | 403 unless ADMIN; otherwise the sheet Inventory for xlsx, else the CSV of one row per unit, with no-store |
| InventoryExport.RowValues | saloncapp/src/app/api/export/inventory/route.ts:50-62 | a row has exactly the nine headers, tax rate 0, stock 1, the unit's SKU, cost and status, and its group's fields or '' and 0 without one |
| InventoryExport.CsvShape | saloncapp/src/app/api/export/inventory/route.ts:82 | the CSV is the header line then one line per unit in stored order, each of nine fields when comma-free |
| InventoryExport.SkuField | saloncapp/src/app/api/export/inventory/route.ts:54 | the second field of a line is the quoted SKU and reads back as it |
| ProcurementExport.QuantityChoice | src/app/api/export/procurement/route.ts:61 | the quantity is the approved one when set, else the requested one, else 0 |
| ProcurementExport.LastInvoiceWins | src/app/api/export/procurement/route.ts:52-57 | the invoice found is filed against the request and no later one is; none is found only when none is filed |
| ProcurementExport.Get | src/app/api/export/procurement/route.ts:35-93 | 403 unless ADMIN; otherwise the sheet Procurement for xlsx, else the CSV of one row per request, with no-store |
| ProcurementExport.RowValues | src/app/api/export/procurement/route.ts:55-67 | a row has exactly the seven headers, no supplier, the estimated price or 0, the status, and '' for a missing invoice or group |
| ProcurementExport.ObjectInInvoiceColumn | src/app/api/export/procurement/route.ts:63 | as written, the invoice column of a request with a filed invoice is '[object Object]' where the file name is meant |
| ProcurementExport.InvoiceNameReadsBack | src/app/api/export/procurement/route.ts:63 | corrected, the invoice field reads back as the name of the invoice's first file |
| ProcurementExport.CsvShape | src/app/api/export/procurement/route.ts:86 | the CSV is the header line then one line per request in stored order |
| ProcurementApi.Post | saloncapp/src/app/api/procurement/route.ts:25-76 | the stored requests and the reply are those the create outcome gives, the store stays valid, the next id advances only on success and nothing else changes |
| ProcurementApi.Check | saloncapp/src/app/api/procurement/route.ts:40-59 | a refusal carries one of the five messages, a falsy group is refused first, and an accepted input keeps the group (when it casts), the creator and the parsed quantity |
| ProcurementApi.CreateOutcome | saloncapp/src/app/api/procurement/route.ts:25-76 | 403 without a session; a refusal writes nothing; a creation needs a valid body whose group id casts, and appends one PENDING request with the next id |
| ProcurementApi.List | saloncapp/src/app/api/procurement/route.ts:8-23 | 401 exactly without a session; otherwise every request, with its group, newest first |
| ProcurementApi.CheckIffBodyOk | saloncapp/src/app/api/procurement/route.ts:42-59 | the checks accept exactly the bodies with a truthy group id, a RETAIL or INHOUSE purpose, a positive finite quantity, a price that is omitted or non-negative, and a date that is falsy or parses; what they accept meets the schema exactly when the group id casts |
| ProcurementApi.ListedRequests | saloncapp/src/app/api/procurement/route.ts:15-17 | every stored request is listed with its own group |
| ProcurementApi.RefusalWritesNothing | saloncapp/src/app/api/procurement/route.ts:28-59 | without a session the answer is 403; any refusal leaves the requests unchanged |
| ProcurementApi.UncastableGroupFails | saloncapp/src/app/api/procurement/route.ts:42-74 | a truthy group id that is not an ObjectId passes the handler's checks; `create` fails its cast and the catch answers 500, writing nothing |
| ProcurementApi.CreatedRequest | saloncapp/src/app/api/procurement/route.ts:61-72 | a valid body with a castable group id from a signed-in caller appends exactly one PENDING request, nothing approved or received, with the parsed quantity, the named group and the caller as creator, answered 201 |
| ProcurementApi.FractionalQuantityAccepted | saloncapp/src/app/api/procurement/route.ts:48-51 | a fractional quantity such as 2.5 passes |
| ProcurementApi.PriceDefaults | saloncapp/src/app/api/procurement/route.ts:52 | an omitted price stays unset while null reads as 0 |
| ProcurementApi.BadPriceOrDate | saloncapp/src/app/api/procurement/route.ts:52-59 | a negative or non-numeric price, or a truthy date that does not parse, is refused with its own message |
| ProcurementApi.Populate | saloncapp/src/app/api/procurement/route.ts:16 | one listed entry per request, each with its group looked up |
| NewRequestForm.Modal.constructor | saloncapp/src/components/procurement/NewRequestModal.tsx:8-18 | the form starts with no product, purpose RETAIL and every text empty, with no message shown |
| NewRequestForm.Modal.Change | saloncapp/src/components/procurement/NewRequestModal.tsx:97-162 | an input's change replaces its own field and leaves the rest of the form and the messages |
| NewRequestForm.Modal.HandleSubmit | saloncapp/src/components/procurement/NewRequestModal.tsx:28-74 | a form failing a check shows that check's message and sends nothing; otherwise the form is posted, and only an ok reply shows the success message and closes; the form is kept and loading ends |
| NewRequestForm.FormErrorIffIncomplete | saloncapp/src/components/procurement/NewRequestModal.tsx:35-56 | the modal posts exactly the forms with a product, a positive quantity, a non-negative price and a date; the first failing check names its message |
| NewRequestForm.InitialRefused | saloncapp/src/components/procurement/NewRequestModal.tsx:8-38 | the fresh form is refused for its missing product, and changing one field leaves the others |
| NewRequestForm.EmptyPriceStoredAsZero | saloncapp/src/components/procurement/NewRequestModal.tsx:46-61 | an empty price passes the modal, and the route then stores a price of 0 |
| NewRequestForm.PostedFormAccepted | saloncapp/src/components/procurement/NewRequestModal.tsx:35-62 | a form the modal posts, with a purpose of its select and a parsable date, passes every check of the route with the same quantity |
| NewRequestForm.EmptyDateOnlyClientSide | saloncapp/src/components/procurement/NewRequestModal.tsx:52-56 | the modal refuses an empty date that the route would accept and leave unset |
| ProcurementList.Approve | src/components/procurement/ProcurementList.tsx:15-22 | nothing is sent without confirmation; otherwise a POST to the request's approve path approving the full requested quantity |
| ProcurementList.ActionsExclusive | src/components/procurement/ProcurementList.tsx:99-117 | no row offers both Approve and Receive; a received request offers neither; only an ADMIN sees Approve |
| ProcurementList.BadgesDistinct | src/components/procurement/ProcurementList.tsx:42-50 | each status has a badge of its own and any other value gets the grey clock |
| ProcurementList.ReplaceFirstSpec | src/components/procurement/ProcurementList.tsx:94 | replace changes only the first underscore, keeping the text before and after |
| ProcurementList.ReplaceFirstAbsent | src/components/procurement/ProcurementList.tsx:94 | a status without an underscore shows unchanged |
| ProcurementList.StatusLabels | src/components/procurement/ProcurementList.tsx:94 | every status shows without underscores; PARTIALLY_RECEIVED shows as 'PARTIALLY RECEIVED' |
| ReceiveModal.Filter | saloncapp/src/components/procurement/ReceiveStockModal.tsx:76-88 | the loop keeps exactly the files the filter keeps, in order, and leaves the message of the last file it dropped |
| ReceiveModal.Modal.constructor | saloncapp/src/components/procurement/ReceiveStockModal.tsx:7-27 | the quantity starts at approved minus received, the stocked date at today's day, every other field empty and no file selected |
| ReceiveModal.Modal.ChangeQuantity | saloncapp/src/components/procurement/ReceiveStockModal.tsx:144 | the quantity becomes parseInt of the input's text |
| ReceiveModal.Modal.HandleFileChange | saloncapp/src/components/procurement/ReceiveStockModal.tsx:74-91 | the kept files replace the selection and their names the invoice list; a dropped file leaves its message |
| ReceiveModal.Modal.HandleDrop | saloncapp/src/components/procurement/ReceiveStockModal.tsx:92-110 | the kept files are appended to the selection and their names to the invoice list |
| ReceiveModal.Modal.HandleSubmit | saloncapp/src/components/procurement/ReceiveStockModal.tsx:29-72 | a receipt is posted exactly when neither guard refuses; a refusal shows its message; a posted receipt carries the form and the selected files, and only an ok reply counts as success, any other showing its error |
| ReceiveModal.RejectionIffNotAllowed | saloncapp/src/components/procurement/ReceiveStockModal.tsx:79-86 | a file is dropped exactly when it is not a PDF, PNG or JPEG or is over 10 MiB, the type checked first |
| ReceiveModal.KeptAllowed | saloncapp/src/components/procurement/ReceiveStockModal.tsx:78-88 | every kept file is allowed and every allowed file is kept |
| ReceiveModal.AllAllowed | saloncapp/src/components/procurement/ReceiveStockModal.tsx:78-88 | when every file is allowed all are kept and no message is left |
| ReceiveModal.RejectionReported | saloncapp/src/components/procurement/ReceiveStockModal.tsx:79-85 | a message is left exactly when some file is dropped |
| ReceiveModal.KeptAppend | saloncapp/src/components/procurement/ReceiveStockModal.tsx:97-108 | filtering two batches one after the other keeps what filtering them together keeps |
| ReceiveModal.TwoDrops | saloncapp/src/components/procurement/ReceiveStockModal.tsx:108-109 | two drops select, and name, what one drop of both batches would |
| ReceiveModal.GuardOrder | saloncapp/src/components/procurement/ReceiveStockModal.tsx:35-45 | over-receipt is checked first and only from above; a receipt passes exactly when the quantity is at most what remains and a file is selected |
| ReceiveModal.PrefilledPasses | saloncapp/src/components/procurement/ReceiveStockModal.tsx:10-35 | the prefilled quantity, and any zero or negative one, passes the over-receipt guard |
| ReceiveModal.EmptyQuantityPasses | saloncapp/src/components/procurement/ReceiveStockModal.tsx:35-49 | an emptied quantity box parses to NaN, passes the guard and is posted as 'NaN' |
| ReceiveModal.ParseIntWhole | saloncapp/src/components/procurement/ReceiveStockModal.tsx:144 | parseInt reads a whole number's decimal text back as that number |
| ReceiveModal.ParseIntTruncates | saloncapp/src/components/procurement/ReceiveStockModal.tsx:144 | parseInt cuts a decimal quantity to its whole part |
| ReceiveModal.Modal.ChangeText | saloncapp/src/components/procurement/ReceiveStockModal.tsx:162-195 | only the edited text field takes the new text; every other field, the files and the flags are kept |
| DebugScenario.Scenario.constructor | src/app/api/debug/verify/route.ts:26-46 | the script's state once the group and the request exist: the two creation steps logged as passes |
| DebugScenario.Scenario.Approve | src/app/api/debug/verify/route.ts:48-53 | the request becomes APPROVED with the given quantity, logged as a pass; units are untouched |
| DebugScenario.Scenario.Receive | src/app/api/debug/verify/route.ts:55-93 | a receipt builds a batch of n units of the request's group and passes it to the ordered insert, which stops at a SKU already stored; only a complete insert raises receivedQty by n and sets the status |
| DebugScenario.Scenario.Log | src/app/api/debug/verify/route.ts:17-19 | a log call appends exactly its entry |
| DebugScenario.Scenario.MarkConsumed | src/app/api/debug/verify/route.ts:123 | the unit with that id takes the status CONSUMED |
| DebugScenario.Scenario.ApproveAndReceive | src/app/api/debug/verify/route.ts:48-93 | full approval of 10, then a batch of 4 early-expiring units and one of 6 later ones; both go in exactly when no stored unit carries one of the ten scripted SKUs, and then the request ends RECEIVED with 10 more received |
| DebugScenario.Scenario.CountPickConsume | src/app/api/debug/verify/route.ts:95-127 | the group holds 10 units, the FIFO pick is an early-expiring unit whose SKU names EARLY, and that unit is found CONSUMED after the update, each step logged as a pass |
| DebugScenario.Scenario.Run | src/app/api/debug/verify/route.ts:48-131 | from a freshly created request of a group with no stored unit, the script completes exactly when no stored unit carries a scripted SKU (left by an earlier run, since only groups are cleared), and then every one of the seven steps is logged as a pass, in order |
| DebugScenario.ReceiptsOutcome | src/app/api/debug/verify/route.ts:57-90 | the early batch goes in exactly when none of its four SKUs is stored, and then the late batch exactly when none of its six is |
| DebugScenario.BatchOutcome | src/app/api/debug/verify/route.ts:60-69 | a scripted batch goes in whole exactly when none of its SKUs is stored, and otherwise the ordered insert fails |
| DebugScenario.ScriptOutcome | src/app/api/debug/verify/route.ts:95-127 | over such a store the count is 10, the pick is one early unit, and the update makes it CONSUMED without changing the count |
| DebugScenario.GroupCountAppend | src/app/api/debug/verify/route.ts:96 | the count of a group over two runs of units is the sum of their counts |
| DebugScenario.FreshGroupCount | src/app/api/debug/verify/route.ts:96-97 | a fresh group with batches of 4 and 6 holds 10 units |
| DebugScenario.PickIsEarly | src/app/api/debug/verify/route.ts:105-113 | the FIFO pick of one unit is from the early batch |
| DebugScenario.SetStatusKeepsGroups | src/app/api/debug/verify/route.ts:123 | a status update moves no unit to another group |
| DebugScenario.ConsumedFound | src/app/api/debug/verify/route.ts:123-125 | after the update the unit found by the picked id is CONSUMED |
| DebugScenario.ScriptedRequestRefused | src/app/api/debug/verify/route.ts:39-45 | the request the script creates, with no requestedQty and purpose 'Stock Refill', is refused by the request schema |
| SettingsApi.ForceFifo | saloncapp/src/app/api/settings/route.ts:47-50 | only the inventory section changes, and only its fifoMode, to true |
| SettingsApi.Get | saloncapp/src/app/api/settings/route.ts:7-26 | the stored singleton and the reply are those of the GET outcome; nothing else in the store changes |
| SettingsApi.Put | saloncapp/src/app/api/settings/route.ts:28-59 | the stored singleton and the reply are those of the PUT outcome; nothing else in the store changes |
| SettingsApi.Merge | saloncapp/src/app/api/settings/route.ts:52-54 | each section comes from the patch when the patch has it, and is kept from the stored settings otherwise |
| SettingsApi.GetOutcome | saloncapp/src/app/api/settings/route.ts:7-26 | 401 without a session; otherwise a stored document is returned as is, and a missing one is created with the defaults and returned |
| SettingsApi.PutOutcome | saloncapp/src/app/api/settings/route.ts:28-59 | it succeeds exactly for an ADMIN, storing and returning the merged document, with FIFO mode on if the patch sets an inventory section or it was on before; a refusal is 401 or 403 and writes nothing |
| SettingsApi.RefusalsWriteNothing | saloncapp/src/app/api/settings/route.ts:9-42 | without a session both verbs answer 401, a PUT by anyone but an ADMIN answers 403, and no refusal writes |
| SettingsApi.GetCreatesOnce | saloncapp/src/app/api/settings/route.ts:15-21 | the first GET stores the defaults; a second one finds them, writes nothing and returns the same document |
| SettingsApi.FifoStaysOn | saloncapp/src/app/api/settings/route.ts:46-52 | whatever a PUT carries, the stored settings keep FIFO mode on |
| SettingsApi.SectionsMerged | saloncapp/src/app/api/settings/route.ts:52-54 | an ADMIN PUT replaces exactly the sections the body carries, fifoMode forced on, keeps the others, and works over the defaults when nothing is stored |
| SettingsApi.EmptyPatchKeeps | saloncapp/src/app/api/settings/route.ts:52 | an empty body returns the stored document unchanged |
| SettingsApi.PutIdempotent | saloncapp/src/app/api/settings/route.ts:52 | putting the same body twice stores what putting it once does |
| BusinessSettings.NonEmptyString | saloncapp/src/app/api/settings/business/route.ts:9 | no issue exactly for a non-empty string, which is kept |
| BusinessSettings.LogoUrl | saloncapp/src/app/api/settings/business/route.ts:19 | a logo passes exactly when absent, '' or a URL; another string is an invalid-format issue, a value that is not a string an invalid-union issue |
| BusinessSettings.OneOf | saloncapp/src/app/api/settings/business/route.ts:13 | no issue exactly for one of the options, which is kept; otherwise the one enum issue |
| BusinessSettings.Percent | saloncapp/src/app/api/settings/business/route.ts:15 | no issue exactly when Number of the value is finite and within 0 to 100, and the coerced number is kept |
| BusinessSettings.Messages | saloncapp/src/app/api/settings/business/route.ts:66 | one message per issue, in order: the schema's own text for an empty shop name, the library's otherwise |
| BusinessSettings.PostOutcome | saloncapp/src/app/api/settings/business/route.ts:51-87 | a POST writes nothing, or writes a document whose inventory section, FIFO mode included, is the stored one |
| BusinessSettings.Decide | saloncapp/src/app/api/settings/business/route.ts:63-82 | replacing the profile never touches the inventory section |
| BusinessSettings.Get | saloncapp/src/app/api/settings/business/route.ts:31-49 | the stored singleton and the reply are those of the GET outcome; nothing else in the store changes |
| BusinessSettings.Post | saloncapp/src/app/api/settings/business/route.ts:51-87 | the stored singleton and the reply are those of the POST outcome; nothing else in the store changes |
| BusinessSettings.BusinessIffRules | saloncapp/src/app/api/settings/business/route.ts:8-23 | the business schema accepts exactly the sections that keep every field rule, and then yields every field as given (the text, the number `Number()` reads, the enum named), absent optional texts as '' |
| BusinessSettings.ParseBusiness | saloncapp/src/app/api/settings/business/route.ts:8-23 | a section that is not an object fails with one type issue; a failure has issues; a parsed profile has non-empty texts, a known date format and a tax between 0 and 100 |
| BusinessSettings.BusinessIssues | saloncapp/src/app/api/settings/business/route.ts:8-23 | an object section reports no issue exactly when every field keeps its rule |
| BusinessSettings.ParsedIffNoIssues | saloncapp/src/app/api/settings/business/route.ts:8-23 | the section parses exactly when every field check passes |
| BusinessSettings.NoIssuesIffRules | saloncapp/src/app/api/settings/business/route.ts:8-23 | every field check passes exactly when every rule holds |
| BusinessSettings.HoursIffRules | saloncapp/src/app/api/settings/business/route.ts:25-29 | the hours schema accepts exactly two clock texts and a non-empty off day, and keeps them |
| BusinessSettings.ParseHours | saloncapp/src/app/api/settings/business/route.ts:25-29 | a section that is not an object fails with one type issue; a failure has issues; parsed hours have HH:MM times and a non-empty off day |
| BusinessSettings.OutOfRangeTimesPass | saloncapp/src/app/api/settings/business/route.ts:26-27 | the pattern checks shape only: '99:99' passes, '9:00' is refused |
| BusinessSettings.TaxTextCoerced | saloncapp/src/app/api/settings/business/route.ts:15 | the tax text '18' counts as 18 and an empty text as 0 |
| BusinessSettings.TaxRefused | saloncapp/src/app/api/settings/business/route.ts:15 | a missing or non-numeric tax rate is a type issue; one above 100 is too big |
| BusinessSettings.RefusalsWriteNothing | saloncapp/src/app/api/settings/business/route.ts:53-70 | 401 without a session, 403 for anyone but an ADMIN, and no refusal writes |
| BusinessSettings.BusinessReportedFirst | saloncapp/src/app/api/settings/business/route.ts:63-70 | when both sections fail only the business issues are listed; the hours are reported once the business passes |
| BusinessSettings.EmptyShopNameMessage | saloncapp/src/app/api/settings/business/route.ts:9-66 | an empty shop name with every other field valid is reported as 'Shop name is required' alone |
| BusinessSettings.PostReplacesProfile | saloncapp/src/app/api/settings/business/route.ts:72-83 | a successful POST replaces the two sections with the validated values and keeps every other section, FIFO mode on, over the defaults when nothing is stored |
| BusinessSettings.GetAfterPost | saloncapp/src/app/api/settings/business/route.ts:31-49 | a GET after a successful POST returns what the POST replied and writes nothing |
| BusinessSettings.FirstGetDefaults | saloncapp/src/app/api/settings/business/route.ts:38-45 | the first GET creates the defaults and returns their two sections, with the rupee sign as currency |
| SalesApi.TextOr | src/app/api/sales-invoices/route.ts:41 | a missing or empty text becomes '', any other text is kept |
| SalesApi.Normalized | src/app/api/sales-invoices/route.ts:40-45 | one normalised line per item, in order |
| SalesApi.Substring | src/app/api/sales-invoices/route.ts:38 | the clamped substring is no longer than the range asked for |
| SalesApi.Post | src/app/api/sales-invoices/route.ts:21-62 | the invoices and the reply are those of the create outcome; the id counter moves only on success; no other collection changes |
| SalesApi.CreateOutcome | src/app/api/sales-invoices/route.ts:21-62 | 401 without a session; a refusal writes nothing; a creation appends one invoice by the caller under a number not already stored |
| SalesApi.DraftOf | src/app/api/sales-invoices/route.ts:29-45 | the draft has an 'SI-' number, the caller as creator, one line per item, and tax and total computed from the subtotal and rate |
| SalesApi.Commit | src/app/api/sales-invoices/route.ts:46-57 | a stored draft passes the schema and has a fresh number; the new invoice is appended with the id, number and creator; a refusal writes nothing |
| SalesApi.NumberFor | src/app/api/sales-invoices/route.ts:34-39 | every invoice number starts with 'SI-' |
| SalesApi.Insert | src/app/api/sales-invoices/route.ts:46-57 | the invoice is appended under the next id; nothing else changes |
| SalesApi.List | src/app/api/sales-invoices/route.ts:7-19 | 401 without a session; otherwise every stored invoice, as a permutation, newest first |
| SalesApi.OrZeroPresent | src/app/api/sales-invoices/route.ts:42-43 | the '\|\| 0' default changes only a missing field, which would otherwise be NaN |
| SalesApi.SubtotalIsSumOfLines | src/app/api/sales-invoices/route.ts:30-45 | when every item has a quantity and a price the subtotal is the sum of the line totals |
| SalesApi.CommitSpec | src/models/SalesInvoice.ts:3-21 | the schema stores a draft exactly when it casts and its number is unused, at the end with 201; otherwise 500 and nothing is stored |
| SalesApi.StoredSpec | src/models/SalesInvoice.ts:3-21 | a stored draft keeps its number, author, texts, amounts and lines in order |
| SalesApi.DraftSpec | src/app/api/sales-invoices/route.ts:29-57 | each line total is quantity times price, the tax is the rate's share of the subtotal, the total their sum, missing texts '' |
| SalesApi.MissingQuantityFails | src/app/api/sales-invoices/route.ts:30-44 | an item without a quantity has line total 0 but makes the subtotal NaN, so the invoice is refused |
| SalesApi.CreatedInvoice | src/app/api/sales-invoices/route.ts:28-58 | a created invoice is appended with the next id and a fresh number, its lines the items in order with consistent totals |
| SalesApi.NonArrayItems | src/app/api/sales-invoices/route.ts:29 | a non-array items field makes an invoice with no lines and zero amounts |
| SalesApi.NoTaxRate | src/app/api/sales-invoices/route.ts:31-32 | without a tax rate the tax is 0 |
| SalesApi.EmptyCustomerRefused | src/models/SalesInvoice.ts:5 | a missing or empty customer name is refused and nothing is stored |
| SalesApi.RefusalWritesNothing | src/app/api/sales-invoices/route.ts:23-26 | 401 without a session, and no refusal writes |
| SalesApi.NumberShape | src/app/api/sales-invoices/route.ts:34-39 | the number is 'SI-', the two-digit day, month and four-digit year that read back as the date, '-', and at most six upper-cased random characters |
| SalesApi.ListedInvoices | src/app/api/sales-invoices/route.ts:14 | every stored invoice is listed |
| SalesForm.Page.constructor | saloncapp/src/app/dashboard/sales/page.tsx:9-16 | the page starts with the blank form (one item of quantity 1 and price 0) and is not saving |
| SalesForm.Page.Add | saloncapp/src/app/dashboard/sales/page.tsx:35-40 | the form becomes the one with a blank item appended |
| SalesForm.Page.Update | saloncapp/src/app/dashboard/sales/page.tsx:42-48 | the form becomes the one with that key of that item set |
| SalesForm.Page.Remove | saloncapp/src/app/dashboard/sales/page.tsx:50-55 | the form becomes the one without the item at that index |
| SalesForm.Page.HandleSubmit | saloncapp/src/app/dashboard/sales/page.tsx:57-94 | the payload of the form as it was is sent; success resets the form and refreshes, failure keeps it; saving ends off |
| SalesForm.AddThenRemove | saloncapp/src/app/dashboard/sales/page.tsx:35-55 | adding appends one blank item and keeps the others; removing that last item gives the form back |
| SalesForm.UpdateSpec | saloncapp/src/app/dashboard/sales/page.tsx:42-48 | an update changes that key of that item only, and repeating it changes nothing more |
| SalesForm.DropIndexSpec | saloncapp/src/app/dashboard/sales/page.tsx:52 | the filter from a position drops exactly the element at the index, or nothing out of range |
| SalesForm.RemoveSpec | saloncapp/src/app/dashboard/sales/page.tsx:50-55 | removing keeps every other item in order, out of range changes nothing, and may leave no item |
| SalesForm.PayloadTotals | saloncapp/src/app/dashboard/sales/page.tsx:61-71 | the payload keeps the items in order and makes the route's subtotal the sum of the line totals it stores |
| SalesForm.PayloadItems | saloncapp/src/app/dashboard/sales/page.tsx:64-68 | one payload item per form item, its numbers converted and always present |
| SalesForm.InitialFormRefused | saloncapp/src/app/dashboard/sales/page.tsx:10-16 | the blank form posted as it is is refused, because its customer name is empty |
| UsersApi.Public | src/app/api/users/route.ts:17 | the listed document carries every field of the user but the password |
| UsersApi.Find | src/app/api/users/route.ts:89 | the position found holds the id; no position holds it when none is found |
| UsersApi.Publics | src/app/api/users/route.ts:17 | one password-free document per user, in order |
| UsersApi.List | src/app/api/users/route.ts:8-23 | 403 exactly for a non-ADMIN; otherwise every user without password, as a permutation, newest first |
| UsersApi.Post | src/app/api/users/route.ts:25-63 | the users and the reply are those of the create outcome; the id counter moves only on success; no other collection changes |
| UsersApi.CreateOutcome | src/app/api/users/route.ts:25-63 | 403 unless ADMIN; a refusal writes nothing; a creation appends one user with the next id, the body's email (not already stored) and the hashed password, and replies 201 with its public view |
| UsersApi.Insert | src/app/api/users/route.ts:46-52 | the user is appended under the next id, keeping ids and emails distinct; nothing else changes |
| UsersApi.Put | src/app/api/users/route.ts:65-100 | the users and the reply are those of the update outcome; no other collection changes |
| UsersApi.UpdateOutcome | src/app/api/users/route.ts:65-100 | 403 unless ADMIN; the number of users never changes; a refusal writes nothing |
| UsersApi.Replace | src/app/api/users/route.ts:89 | one stored user is overwritten by one of the same id and email, keeping both distinct; nothing else changes |
| UsersApi.ResetPassword | src/app/api/users/reset-password/route.ts:8-35 | the users and the reply are those of the reset outcome; no other collection changes |
| UsersApi.ResetOutcome | src/app/api/users/reset-password/route.ts:8-35 | 401 unless ADMIN; the number of users never changes; a refusal writes nothing |
| UsersApi.RefusalsWriteNothing | src/app/api/users/route.ts:28-92 | no refusal of create, update or reset writes; a non-ADMIN gets 403 from the user routes and 401 from the reset |
| UsersApi.MissingFieldRefused | src/app/api/users/route.ts:34-36 | for an ADMIN, 'Missing fields' exactly when one of the four fields is falsy |
| UsersApi.TruthyText | src/app/api/users/route.ts:34 | a truthy field is a non-empty text once cast |
| UsersApi.CreatedUser | src/app/api/users/route.ts:40-58 | a created user is appended under the fresh id, active, with a valid role, an email no stored user had and the hashed password, and replied without it; every valid request succeeds |
| UsersApi.DuplicateEmailRefused | src/app/api/users/route.ts:40-43 | an email already stored is refused as 'User already exists' and nothing is written |
| UsersApi.CreateKeepsEmailsUnique | src/models/User.ts:5 | a create keeps the stored emails distinct |
| UsersApi.SelfDeactivationRefused | src/app/api/users/route.ts:80-83 | an ADMIN naming their own id with the same spelling as the session's and isActive false is refused with 400; activating it fails only when the id is unknown |
| UsersApi.OtherSpellingDeactivatesSelf | src/app/api/users/route.ts:80-83 | the guard compares texts: an ADMIN who names their own stored id in another spelling, with isActive false, is deactivated |
| UsersApi.SelectiveUpdate | src/app/api/users/route.ts:85-95 | a successful PUT changes only the user named: the role only for a truthy role, the flag only for a boolean, nothing else |
| UsersApi.UnknownIdNotFound | src/app/api/users/route.ts:89-93 | an id no user has is answered 404 by the update and the reset, and nothing is written |
| UsersApi.ResetChangesPasswordOnly | src/app/api/users/reset-password/route.ts:15-30 | a successful reset replaces the named user's password by the hash and changes nothing else |
| UsersApi.WritesKeepEmails | src/app/api/users/route.ts:85-89 | neither an update nor a reset changes any user's id or email |
| UsersApi.ListedUsers | src/app/api/users/route.ts:17 | one entry per stored user, and a user is listed exactly when stored |
| UserAdmin.Submission | src/app/dashboard/settings/UserManagement.tsx:63-67 | editing sends a PUT of the user's id, the form's role and the listed flag; otherwise a POST of the four form fields |
| UserAdmin.ResetRequest | src/app/dashboard/settings/UserManagement.tsx:113-121 | a request is sent exactly when the prompt returns a non-empty answer, naming the user and that password |
| UserAdmin.Panel.constructor | src/app/dashboard/settings/UserManagement.tsx:18-32 | an empty list and search, a closed modal in create mode, empty fields and the STAFF role |
| UserAdmin.Panel.ResetForm | src/app/dashboard/settings/UserManagement.tsx:131-137 | the fields are cleared, the role is STAFF and create mode is on; nothing else changes |
| UserAdmin.Panel.OpenCreate | src/app/dashboard/settings/UserManagement.tsx:157 | a blank form in create mode, with the modal open |
| UserAdmin.Panel.OpenEdit | src/app/dashboard/settings/UserManagement.tsx:139-145 | edit mode for the user, with its name, email and role and the modal open; the password field is kept |
| UserAdmin.Panel.Fetched | src/app/dashboard/settings/UserManagement.tsx:45-57 | an ok reply replaces the list, anything else keeps it; nothing else changes |
| UserAdmin.Panel.HandleSubmit | src/app/dashboard/settings/UserManagement.tsx:59-91 | the form's request is sent; success toasts, closes, resets and refreshes; a refusal toasts its error or 'Operation failed' and keeps the form; submitting ends off |
| UserAdmin.FilteredSpec | src/app/dashboard/settings/UserManagement.tsx:147-150 | a user is shown exactly when listed and matched by name or email, ignoring case |
| UserAdmin.FilteredAppend | src/app/dashboard/settings/UserManagement.tsx:147-150 | the filter distributes over concatenation, so list order is kept |
| UserAdmin.EmptySearchShowsAll | src/app/dashboard/settings/UserManagement.tsx:147-150 | an empty search shows every listed user |
| UserAdmin.SearchIgnoresCase | src/app/dashboard/settings/UserManagement.tsx:147-150 | searching the lower-cased query shows the same users |
| UserAdmin.EditChangesRoleOnly | src/app/dashboard/settings/UserManagement.tsx:65-66 | a successful edit of a freshly listed user changes at most its role, and nothing for an empty role |
| UserAdmin.ToggleFlips | src/app/dashboard/settings/UserManagement.tsx:93-100 | a successful toggle flips that user's flag only; an ADMIN deactivating their own account is refused |
| UserAdmin.ToggleStatus | src/app/dashboard/settings/UserManagement.tsx:93-111 | a request is sent exactly when the confirm is accepted, carrying only the negated flag; an ok reply refetches the list, a refusal toasts its error or 'Operation failed', a failed request does neither |
| UserAdmin.ToggleTwice | src/app/dashboard/settings/UserManagement.tsx:99 | toggling twice from fresh listings gives the stored user back |
| UserAdmin.EmptyFieldRefused | src/app/dashboard/settings/UserManagement.tsx:67 | a new user with any empty field is refused as missing fields |
| Connection.SeedName | src/lib/db.ts:57 | the configured name when set, else 'Admin'; never empty |
| Connection.Cache.constructor | src/lib/db.ts:27-31 | no connection and no attempt cached |
| Connection.Cache.Connect | src/lib/db.ts:33-73 | a cached connection is returned without connecting or seeding; a rejected attempt clears the cached promise and writes nothing; a settled one is cached and the seed runs on the store |
| Connection.Seed | src/lib/db.ts:55-70 | the users become those of the seed step, with ids kept fresh; no other collection changes |
| Connection.SeedOutcome | src/lib/db.ts:55-70 | without both credentials, or with an admin already stored, nothing is written; otherwise one active ADMIN with the email, the hashed password and the seed name is appended under an email not yet taken |
| Connection.NoSeedUnlessNeeded | src/lib/db.ts:58-60 | without both credentials, or with an ADMIN stored, nothing is written |
| Connection.SeededAdmin | src/lib/db.ts:58-68 | a seed adds exactly one active ADMIN with the seed email, the hash and the name or 'Admin'; once it exists a second seed writes nothing; it is added whenever the email is free |
| Connection.TwoCalls | src/lib/db.ts:33-53 | after a connected first call the second returns the same connection; after a failed one the second makes a fresh attempt |
| InvoiceDownload.Disposition | src/app/api/invoices/download/route.ts:16 | 'inline' exactly for the query value 'inline', otherwise 'attachment' |
| InvoiceDownload.LastIndexOf | src/app/api/invoices/download/route.ts:34-35 | the index found holds the character and none follows it; none found means the character is absent |
| InvoiceDownload.Basename | src/app/api/invoices/download/route.ts:35 | the name is a suffix of the path without '/' |
| InvoiceDownload.Extname | src/app/api/invoices/download/route.ts:34 | the extension is empty or one '.' followed by no other |
| InvoiceDownload.ContentType | src/app/api/invoices/download/route.ts:36-40 | each known extension has its type, and every other one is octet-stream |
| InvoiceDownload.Refusals | src/app/api/invoices/download/route.ts:9-53 | 401 without a session, 400 without a file, 403 outside the upload directory, 404 when nothing is stored there, and 500 from the failed read of a directory, in that order |
| InvoiceDownload.DownloadOutcome | src/app/api/invoices/download/route.ts:9-53 | a 200 reply needs a regular file inside the invoice folder; every refusal is 400, 401, 403, 404 or 500; the content type is one of the four the route sets |
| InvoiceDownload.ServedFile | src/app/api/invoices/download/route.ts:34-48 | a file is served exactly when all checks pass and the path holds a regular file, with the type of its lower-cased extension, the disposition and its name, and no caching |
| InvoiceDownload.ExtensionCase | src/app/api/invoices/download/route.ts:34 | the extension is compared in lower case |
| InvoiceDownload.LastDotCounts | src/app/api/invoices/download/route.ts:34 | only the last dot of the name starts the extension |
| InvoiceDownload.LeadingDotIsNoExtension | src/app/api/invoices/download/route.ts:34 | a name whose only dot comes first has no extension |
| InvoiceDownload.DirectoryDotIgnored | src/app/api/invoices/download/route.ts:34 | a dot in a directory name is not an extension |
| InvoiceDownload.SiblingDirectoryAdmitted | src/app/api/invoices/download/route.ts:25 | the prefix test as written admits a sibling directory whose name extends the upload directory's |
| InvoiceDownload.ContainedSpec | src/app/api/invoices/download/route.ts:21-27 | the corrected test admits exactly the directory and the paths below it, is stricter than the written one, and differs only on sibling names |
| InvoiceDownload.DispositionChoice | src/app/api/invoices/download/route.ts:16 | the disposition test is case-sensitive and defaults to attachment |
| EnvFile.KeyRun | saloncapp/scripts/checkAdmin.js:11 | the longest prefix of key characters |
| EnvFile.DotRun | saloncapp/scripts/checkAdmin.js:11 | the longest prefix without a line terminator |
| EnvFile.ReadEnv | saloncapp/scripts/checkAdmin.js:5-20 | an unreadable file gives the empty map; otherwise the map the lines build in order |
| EnvFile.ParseLine | saloncapp/scripts/checkAdmin.js:11 | a matched line gives a non-empty key of letters, digits and underscores (`[A-Za-z0-9_]`), and a value with no line terminator |
| EnvFile.EnvOf | saloncapp/scripts/checkAdmin.js:10-15 | the key of the last line, when it matches, maps to that line's value |
| EnvFile.Setting | saloncapp/scripts/checkAdmin.js:22-24 | the file's non-empty value, else the environment's non-empty value, else the default |
| EnvFile.TrimStartSpaces | saloncapp/scripts/checkAdmin.js:11 | leading whitespace is skipped up to the first other character |
| EnvFile.KeyRunAll | saloncapp/scripts/checkAdmin.js:11 | a run of key characters followed by another character is taken whole |
| EnvFile.DotRunAll | saloncapp/scripts/checkAdmin.js:11 | a value without terminators is taken whole |
| EnvFile.LineRoundTrip | saloncapp/scripts/checkAdmin.js:11-14 | a line 'KEY = VALUE' with any spacing reads back as the key and the value, trailing spaces included |
| EnvFile.AfterKey | saloncapp/scripts/checkAdmin.js:11 | after the key come optional spaces, '=' and optional spaces, then the value |
| EnvFile.ValueRun | saloncapp/scripts/checkAdmin.js:11 | the greedy value takes the whole terminator-free rest |
| EnvFile.NonMatchingLines | saloncapp/scripts/checkAdmin.js:11-12 | blank and comment lines, and lines without '=', set nothing |
| EnvFile.ParseExamples | saloncapp/scripts/checkAdmin.js:11 | 'A=b  ' keeps its trailing spaces; '#A=b' sets nothing |
| EnvFile.EnvAppend | saloncapp/scripts/checkAdmin.js:10-15 | a further line applies one more step |
| EnvFile.KeyFromSomeLine | saloncapp/scripts/checkAdmin.js:10-15 | a key is in the map exactly when some line sets it |
| EnvFile.LastLineWins | saloncapp/scripts/checkAdmin.js:12-14 | the last line setting a key gives its value |
| EnvFile.UnreadableFileFallsBack | saloncapp/scripts/checkAdmin.js:17-23 | an unreadable file leaves every setting to the environment, then the default |
| Dates.TwoDigits | src/app/api/sales-invoices/route.ts:35-36 | a day or month is padded to two digits that read back as the number |
| Dates.StampRoundTrip | src/app/api/sales-invoices/route.ts:35-39 | the day stamp is eight digits whose fields read back as the day, the month and the year |

## Left out

- React rendering, the settings forms, the login page, the sidebar and the other modals are UI with no logic beyond copying state. This includes the settings forms' `canEdit`, which compares against lower-case role names.
- The approve, receive, single-unit consume and unit-status server routes are not part of this model. The lifecycle is assembled from the list's actions, the receive form's guards and the debug script, and no server-side guard is assumed.
- The debug route's own setup is not modelled: clearing data and creating the group and the request. Its request, as written, is refused by the schema (see Findings). `DebugScenario.Scenario.Run` therefore starts from a schema-valid PENDING request.
- XLSX reading and writing cover the xlsx branches of both import routes, the template route and the export routes. They are a foreign library; only the CSV paths are modelled.
- zod's email, URL and date checks and its message texts, bcrypt, next-auth sessions, `Math.random`, `new Date()`, `path.resolve`, `fs.stat` and `fs.readFile` are not modelled. They appear as parameters: predicates, hash values, suffix texts, timestamps, resolved paths and what is stored at a path (nothing, a directory or a regular file). A read that fails on a regular file, for lack of permission say, is not modelled.
- Mongoose and the database driver are not modelled themselves. Queries are sequence filters, sorts and updates on `Db.Store`. Casting is written out in `Casting` for the types the schemas use. Validation messages are fixed strings in place of mongoose's texts.
- The 500 replies of the `catch` blocks are modelled only where the modelled code throws: a failed cast (a group id that is not an ObjectId among them), a unique-index violation or a non-string password. Failures of the database itself are not modelled.
- Concurrency is not modelled. There are no overlapping requests, no races between the FIFO read and its update, and no two `dbConnect` calls awaiting one pending promise. Every call runs to completion before the next.
- Floating point is not modelled. Numbers are reals, with NaN kept apart. `Number()` of a text handles signs, digits and one decimal point; exponents, hexadecimal, `Infinity` and rounding are not modelled.
- Request bodies with nested objects or arrays where a scalar is expected are not modelled. Neither are item lists with non-object entries. `Js.Val` holds scalars only.
- The HTML `required`, `min` and `max` attributes of the forms are not modelled. The browser enforces them before a handler runs; the model covers the handlers' own checks only.
- Toast timers, loading flags and the `fetch` refreshes after a write are not modelled. A refresh is a returned flag; its contents come from the list routes.
- `openInvoices` in `src/components/procurement/ProcurementList.tsx` (lines 29-40) is not modelled: it only fetches and shows the invoice list.
- The `MONGODB_URI` check at module load in `src/lib/db.ts` (lines 7-9) is not modelled, because it throws before any call. The connect-and-print `main` of `saloncapp/scripts/checkAdmin.js` is not modelled either; it is I/O.
- `src/models/Product.ts` and `src/models/ProcurementReceive.ts` are not modelled: they have no behaviour in the modelled code. Of `src/models/Invoice.ts`, `Models.SupplierInvoice` keeps only `procurementId` and `files` (each file's name, type, size and path), the fields the procurement export reads; its upload metadata and its schema checks are not modelled.
- SettingsApi.Put: a section in a PUT body replaces the whole stored section. A partial section is written as given, not merged field by field, and its schema defaults are not re-applied.
- DashboardStats.PendingCount and DashboardStats.ExpiredCount: their own contracts state bounds and when the count is zero. The exact count is fixed by the definition the stats route's outcome uses.
- Get (ProcurementExport.Get) and Rows (ProcurementExport.Rows): the export's invoice column holds the last invoice's first file name (`RequestRow`), where `src/app/api/export/procurement/route.ts` line 63 writes the file object itself, which reads "[object Object]". The as-written column is `RequestRowAsWritten`, shown by `ObjectInInvoiceColumn` (see Findings).
- DownloadOutcome (InvoiceDownload.DownloadOutcome), Refusals and ServedFile: the download is refused unless the resolved path is the invoice folder or lies below it (`Contained`). `src/app/api/invoices/download/route.ts` line 25 uses a plain `startsWith`, which also serves files of a sibling folder whose name extends the invoice folder's. The as-written test is `ContainedAsWritten`, shown by `SiblingDirectoryAdmitted` (see Findings).
- DefaultSettings (Models.DefaultSettings), Get (SettingsApi.Get and BusinessSettings.Get) and FirstGetDefaults: the default currency is the rupee sign (`Rupee`), where `src/models/Settings.ts` line 84 holds its UTF-8 bytes read as cp1252, three characters. The as-written value is `CurrencyAsWritten`, shown by `CurrencyMisencoded` (see Findings).
- ToLower and ToUpper (Js.ToLower, Js.ToUpper): case mapping covers ASCII letters only, where `toLowerCase` and `toUpperCase` map all of Unicode, and upper-casing can lengthen a text ('ß' becomes "SS").
- FilteredSpec and SearchIgnoresCase (UserAdmin): the search ignores the case of ASCII letters only, because `Js.ToLower` does; the page also folds non-ASCII letters such as 'É'.
- GeneratedSku (InventoryImport.GeneratedSku): the prefix of at most four characters holds for the ASCII-only `Js.ToUpper`; in the source, upper-casing a prefix that contains 'ß' gives five characters.
- Outcome (ConsumeFifo.Outcome) and Post (ConsumeFifo.Post): the body's `quantity` is an integer. The route destructures any JSON value, so a text such as "3" or a fraction such as 1.5 passes its `quantity <= 0` guard and reaches `.limit(quantity)`; such bodies are not modelled.
- List (UnitsRoute.List): the listed units carry their group's id. The route's `.populate('productGroupId', 'productName brandName subCategory')` replaces it with the group's names, a reply shape the model does not build.
- ExpiringOf (DashboardStats.ExpiringOf) and Get (DashboardStats.Get): the window ends 30 days of 24 hours after now. The route's `setDate(getDate() + 30)` adds 30 calendar days in local time, an hour more or less when a daylight-saving change falls inside the window.
- SortByKey (Ordering.SortByKey): units with equal keys keep their insertion order. MongoDB promises no order among equal sort keys, so the FIFO pick among units with the same expiry and stocked dates is one of the orders the database may return.

## Findings

| source | as written | input that shows it | evidently intended | confidence | as-written member | corrected member |
|---|---|---|---|---|---|---|
| src/app/api/export/procurement/route.ts:63 | the invoice column takes `inv.files[0]`, a file object, so `String(v)` writes `[object Object]` | a request with one supplier invoice holding one file named `bill.pdf` | the file's name, `bill.pdf`, in the column | high (not executed) | ProcurementExport.ObjectInInvoiceColumn | ProcurementExport.InvoiceNameReadsBack |
| src/app/api/invoices/download/route.ts:25 | `requested.startsWith(allowed)` is a plain text prefix test | `/srv/.uploads/invoices-old/x.pdf` against the upload directory `/srv/.uploads/invoices` | only the upload directory itself and paths below it, at a `/` | high (not executed) | InvoiceDownload.SiblingDirectoryAdmitted | InvoiceDownload.ContainedSpec |
| src/models/Settings.ts:84 | the currency default is the three characters `â‚¹`: the UTF-8 bytes of the rupee sign read as Windows-1252 | the first GET of the settings, which stores the defaults | the single rupee sign `₹`, as the settings form uses | high (not executed) | Models.CurrencyMisencoded | Models.DefaultCurrencyIsRupee |
| src/app/api/debug/verify/route.ts:39-45 | the scripted request passes `quantity` and purpose 'Stock Refill', so the schema refuses it and the script ends in its catch | any run of the route | a PENDING request with `requestedQty` 10 and purpose RETAIL or INHOUSE, from which all seven steps pass | high (not executed) | DebugScenario.ScriptedRequestRefused | DebugScenario.Scenario.Run |
