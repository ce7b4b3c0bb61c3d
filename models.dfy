/**
 * The stored records: product groups, inventory units, procurement requests,
 * supplier invoices, sales invoices, users and the settings singleton, with
 * their enums, their defaults and the unique indexes the schemas declare.
 */
module Models {
  import opened Base
  import opened Js

  /** Document ids (ObjectIds) are modelled as naturals. */
  type Id = nat

  /**
   * A group id as a JSON body names it: falsy (missing, null, '' or 0), a
   * truthy value that does not cast to an ObjectId (such as "abc"), or the
   * id of a document.
   */
  datatype BodyId = Falsy | Uncastable(text: string) | ObjectId(id: Id)

  /** The id the client sends for a chosen option, `Falsy` for none. */
  function SentId(o: Option<Id>): (r: BodyId)
    ensures r.ObjectId? <==> o.Some?
    ensures r.ObjectId? ==> r.id == o.value
    ensures !r.Uncastable?
  {
    if o.Some? then ObjectId(o.value) else Falsy
  }

  /** Instants are milliseconds since the epoch. */
  type Time = int

  const DayMs: int := 86400000

  // ----------------------------------------------------------- inventory unit

  datatype UnitStatus = ACTIVE | EXPIRED | CONSUMED

  function UnitStatusName(s: UnitStatus): string {
    match s
    case ACTIVE => "ACTIVE"
    case EXPIRED => "EXPIRED"
    case CONSUMED => "CONSUMED"
  }

  /** The enum validator of `status`: only the three names are accepted. */
  function ParseUnitStatus(name: string): (r: Option<UnitStatus>)
    ensures r.Some? ==> UnitStatusName(r.value) == name
  {
    if name == "ACTIVE" then Some(ACTIVE)
    else if name == "EXPIRED" then Some(EXPIRED)
    else if name == "CONSUMED" then Some(CONSUMED)
    else None
  }

  lemma UnitStatusRoundTrip(s: UnitStatus)
    ensures ParseUnitStatus(UnitStatusName(s)) == Some(s)
  {
  }

  datatype InventoryUnit = InventoryUnit(
    id: Id,
    productGroupId: Id,
    sku: string,
    expiryDate: Time,
    stockedDate: Time,
    costPrice: real,
    status: UnitStatus,
    consumedAt: Option<Time>,
    consumedReason: Option<string>,
    createdAt: Time)

  /** What a caller passes to `InventoryUnit.create`; `None` is a field left unset. */
  datatype UnitInput = UnitInput(
    productGroupId: Option<Id>,
    sku: string,
    expiryDate: Option<Time>,
    stockedDate: Option<Time>,
    costPrice: Option<real>,
    status: Option<UnitStatus>)

  /** The required validators of the unit schema; an empty string fails `required`. */
  predicate UnitInputComplete(u: UnitInput) {
    u.productGroupId.Some? && u.sku != "" && u.expiryDate.Some? && u.costPrice.Some?
  }

  /**
   * The document the schema builds from an input at time `now`, or `None`
   * when a required field is missing.
   */
  function NewUnit(id: Id, u: UnitInput, now: Time): (r: Option<InventoryUnit>)
    ensures r.Some? <==> UnitInputComplete(u)
    ensures r.Some? ==> (r.value.id == id && r.value.sku == u.sku
      && Some(r.value.productGroupId) == u.productGroupId
      && Some(r.value.expiryDate) == u.expiryDate
      && Some(r.value.costPrice) == u.costPrice
      && r.value.stockedDate == u.stockedDate.GetOr(now)
      && r.value.status == u.status.GetOr(ACTIVE)
      && r.value.consumedAt.None? && r.value.consumedReason.None?
      && r.value.createdAt == now)
  {
    if UnitInputComplete(u) then
      Some(InventoryUnit(id, u.productGroupId.value, u.sku, u.expiryDate.value,
        u.stockedDate.GetOr(now), u.costPrice.value, u.status.GetOr(ACTIVE), None, None, now))
    else None
  }

  // ------------------------------------------------------------ product group

  /** The unit of measure is stored as text: the import routes write it without validation. */
  predicate ValidMeasure(m: string) {
    m == "ml" || m == "g" || m == "piece"
  }

  const DefaultLowStockThreshold: real := 10.0

  datatype ProductGroup = ProductGroup(
    id: Id,
    brandName: string,
    subCategory: string,
    productName: string,
    quantityPerItem: real,
    measure: string,
    sellingPrice: real,
    lowStockThreshold: Option<real>,
    createdAt: Time)

  /** The six fields of the compound unique index. */
  datatype GroupKey = GroupKey(
    brandName: string,
    subCategory: string,
    productName: string,
    quantityPerItem: real,
    measure: string,
    sellingPrice: real)

  function KeyOf(g: ProductGroup): GroupKey {
    GroupKey(g.brandName, g.subCategory, g.productName, g.quantityPerItem, g.measure, g.sellingPrice)
  }

  /**
   * The group with id `id`: what `productMap.get(id)` and `populate` find. With
   * several candidates the last wins, as when a `Map` is built from the list.
   */
  function GroupById(groups: seq<ProductGroup>, id: Id): (g: Option<ProductGroup>)
    ensures g.Some? ==> g.value in groups && g.value.id == id
    ensures g.None? <==> forall i :: 0 <= i < |groups| ==> groups[i].id != id
    decreases |groups|
  {
    if groups == [] then None
    else if groups[|groups| - 1].id == id then Some(groups[|groups| - 1])
    else GroupById(groups[..|groups| - 1], id)
  }

  /** Two groups that differ only in their threshold still have the same index key. */
  lemma ThresholdNotInKey(g: ProductGroup, t: Option<real>)
    ensures KeyOf(g.(lowStockThreshold := t)) == KeyOf(g)
  {
  }

  // ----------------------------------------------------- procurement request

  datatype Purpose = RETAIL | INHOUSE

  function ParsePurpose(name: string): (r: Option<Purpose>)
    ensures r == Some(RETAIL) <==> name == "RETAIL"
    ensures r == Some(INHOUSE) <==> name == "INHOUSE"
    ensures r.None? <==> name != "RETAIL" && name != "INHOUSE"
  {
    if name == "RETAIL" then Some(RETAIL) else if name == "INHOUSE" then Some(INHOUSE) else None
  }

  datatype RequestStatus = PENDING | APPROVED | PARTIALLY_RECEIVED | RECEIVED

  function RequestStatusName(s: RequestStatus): string {
    match s
    case PENDING => "PENDING"
    case APPROVED => "APPROVED"
    case PARTIALLY_RECEIVED => "PARTIALLY_RECEIVED"
    case RECEIVED => "RECEIVED"
  }

  function ParseRequestStatus(name: string): (r: Option<RequestStatus>)
    ensures r.Some? ==> RequestStatusName(r.value) == name
  {
    if name == "PENDING" then Some(PENDING)
    else if name == "APPROVED" then Some(APPROVED)
    else if name == "PARTIALLY_RECEIVED" then Some(PARTIALLY_RECEIVED)
    else if name == "RECEIVED" then Some(RECEIVED)
    else None
  }

  lemma RequestStatusRoundTrip(s: RequestStatus)
    ensures ParseRequestStatus(RequestStatusName(s)) == Some(s)
  {
  }

  datatype ProcurementRequest = ProcurementRequest(
    id: Id,
    productGroupId: Id,
    purpose: Purpose,
    requestedQty: real,
    approvedQty: real,
    receivedQty: real,
    estimatedPrice: Option<real>,
    expectedDeliveryDate: Option<Time>,
    remarks: Option<string>,
    status: RequestStatus,
    createdBy: Id,
    createdAt: Time,
    updatedAt: Time)

  /** What a caller passes to `ProcurementRequest.create`. */
  datatype RequestInput = RequestInput(
    productGroupId: Option<Id>,
    purpose: Option<string>,
    requestedQty: Option<real>,
    estimatedPrice: Option<real>,
    expectedDeliveryDate: Option<Time>,
    remarks: Option<string>,
    createdBy: Option<Id>)

  predicate RequestInputValid(r: RequestInput) {
    r.productGroupId.Some? && r.purpose.Some? && ParsePurpose(r.purpose.value).Some?
    && r.requestedQty.Some? && r.createdBy.Some?
  }

  /** The document the schema builds: quantities received and approved start at 0, status at PENDING. */
  function NewRequest(id: Id, r: RequestInput, now: Time): (d: Option<ProcurementRequest>)
    ensures d.Some? <==> RequestInputValid(r)
    ensures d.Some? ==> (d.value.status == PENDING && d.value.approvedQty == 0.0
      && d.value.receivedQty == 0.0 && Some(d.value.requestedQty) == r.requestedQty
      && Some(d.value.createdBy) == r.createdBy && Some(d.value.productGroupId) == r.productGroupId
      && d.value.estimatedPrice == r.estimatedPrice
      && d.value.expectedDeliveryDate == r.expectedDeliveryDate && d.value.remarks == r.remarks)
  {
    if RequestInputValid(r) then
      Some(ProcurementRequest(id, r.productGroupId.value, ParsePurpose(r.purpose.value).value,
        r.requestedQty.value, 0.0, 0.0, r.estimatedPrice, r.expectedDeliveryDate, r.remarks,
        PENDING, r.createdBy.value, now, now))
    else None
  }

  // ---------------------------------------------------------- supplier invoice

  datatype InvoiceFile = InvoiceFile(fileName: string, fileType: string, fileSize: nat, path: string)

  /** The invoice files uploaded against a procurement request when it is received. */
  datatype SupplierInvoice = SupplierInvoice(id: Id, procurementId: Id, files: seq<InvoiceFile>)

  // ------------------------------------------------------------- sales invoice

  datatype LineItem = LineItem(description: string, quantity: real, unitPrice: real, lineTotal: real)

  datatype SalesInvoice = SalesInvoice(
    id: Id,
    invoiceNumber: string,
    customerName: string,
    customerEmail: string,
    items: seq<LineItem>,
    subtotal: real,
    taxRate: real,
    taxAmount: real,
    totalAmount: real,
    notes: string,
    createdBy: Id,
    createdAt: Time)

  // ---------------------------------------------------------------------- user

  /** Roles are stored as text: the update route writes any truthy value without the enum check. */
  predicate ValidRole(r: string) {
    r == "ADMIN" || r == "MANAGER" || r == "STAFF"
  }

  const DefaultRole: string := "STAFF"

  datatype User = User(id: Id, name: string, email: string, password: string, role: string, isActive: bool, createdAt: Time)

  /** What a caller passes to `User.create`. */
  datatype UserInput = UserInput(name: string, email: string, password: string, role: Option<string>, isActive: Option<bool>)

  predicate UserInputValid(u: UserInput) {
    u.name != "" && u.email != "" && u.password != "" && (u.role.Some? ==> ValidRole(u.role.value))
  }

  function NewUser(id: Id, u: UserInput, now: Time): (r: Option<User>)
    ensures r.Some? <==> UserInputValid(u)
    ensures r.Some? ==> (r.value.role == u.role.GetOr(DefaultRole) && ValidRole(r.value.role)
      && r.value.isActive == u.isActive.GetOr(true)
      && r.value.name == u.name && r.value.email == u.email && r.value.password == u.password)
  {
    if UserInputValid(u) then
      Some(User(id, u.name, u.email, u.password, u.role.GetOr(DefaultRole), u.isActive.GetOr(true), now))
    else None
  }

  /** The authenticated caller of a route, as the session carries it. */
  datatype Session = Session(userId: Id, role: string)

  // ------------------------------------------------------------------ settings

  datatype BusinessType = Salon | Barbershop | Spa
  datatype TaxType = Inclusive | Exclusive
  datatype AlertFrequency = Daily | Weekly
  datatype Theme = Dark | Light
  datatype LayoutDensity = Compact | Comfortable

  datatype Business = Business(
    shopName: string, contactNumber: string, email: string, address: string,
    businessType: BusinessType, gstNumber: string, defaultTaxPercent: real, taxType: TaxType,
    invoicePrefix: string, invoiceFooterMessage: string, logoUrl: string, currency: string,
    timezone: string, dateFormat: string)

  datatype WorkingHours = WorkingHours(openingTime: string, closingTime: string, weeklyOffDay: string)

  datatype InventoryPolicy = InventoryPolicy(
    lowStockThreshold: real, expiryAlertDays: real, enableExpiryTracking: bool,
    fifoMode: bool, allowNegativeStock: bool)

  datatype ProcurementPolicy = ProcurementPolicy(
    requireAdminApproval: bool, allowPartialReceive: bool, maxReceiveQuantity: real, invoiceMandatory: bool)

  datatype Alerts = Alerts(
    enableLowStockAlerts: bool, enableExpiryAlerts: bool, enableProcurementReminders: bool,
    enableDailySummary: bool, dashboardChannel: bool, emailChannel: bool, alertFrequency: AlertFrequency)

  datatype Permissions = Permissions(
    defaultManagerPermissions: seq<string>, defaultStaffPermissions: seq<string>,
    maxStaffCount: real, maxManagerCount: real)

  datatype Ui = Ui(theme: Theme, accentColor: string, layoutDensity: LayoutDensity, enableAnimations: bool)

  datatype Security = Security(autoLogoutMinutes: real, sessionTimeout: real, enable2FA: bool)

  datatype Settings = Settings(
    business: Business, workingHours: WorkingHours, inventory: InventoryPolicy,
    procurement: ProcurementPolicy, alerts: Alerts, permissions: Permissions,
    ui: Ui, security: Security)

  /** The rupee sign, the currency the settings form starts from. */
  const Rupee: string := "\U{20B9}"

  /**
   * The currency default as the schema file spells it: the three UTF-8 bytes
   * of the rupee sign, each read back as one Windows-1252 character.
   */
  const CurrencyAsWritten: string := "\U{E2}\U{201A}\U{B9}"

  function BusinessWithCurrency(currency: string): Business {
    Business("My Salon", "", "", "", Salon, "", 0.0, Inclusive, "SAL", "", "", currency,
      "Asia/Kolkata", "DD/MM/YYYY")
  }

  /** The business defaults as written, with the garbled currency. */
  function DefaultBusinessAsWritten(): Business {
    BusinessWithCurrency(CurrencyAsWritten)
  }

  /** The UTF-8 encoding of a character from U+0800 to U+FFFF: three bytes. */
  function Utf8Three(c: char): (b: seq<int>)
    requires 0x800 <= c as int <= 0xFFFF
    ensures |b| == 3 && forall i :: 0 <= i < 3 ==> 0x80 <= b[i] <= 0xFF
  {
    var n := c as int;
    [0xE0 + n / 0x1000, 0x80 + (n / 0x40) % 0x40, 0x80 + n % 0x40]
  }

  /** A byte read as Windows-1252: 0x82 is the low quote U+201A, bytes from 0xA0 up are Latin-1. */
  function Cp1252(b: int): char
    requires b == 0x82 || 0xA0 <= b <= 0xFF
  {
    if b == 0x82 then '\U{201A}' else b as char
  }

  /**
   * The schema's currency default is the rupee sign encoded as UTF-8 and
   * read back byte by byte as Windows-1252: three characters, not the one
   * sign the settings form uses.
   */
  lemma CurrencyMisencoded()
    ensures |Rupee| == 1 && Utf8Three(Rupee[0]) == [0xE2, 0x82, 0xB9]
    ensures |CurrencyAsWritten| == 3
    ensures forall i :: 0 <= i < 3 ==> CurrencyAsWritten[i] == Cp1252(Utf8Three(Rupee[0])[i])
    ensures DefaultBusinessAsWritten().currency != Rupee
  {
  }

  /** The business defaults as intended, with the rupee sign: the ones the rest of this model uses. */
  function DefaultBusiness(): Business {
    BusinessWithCurrency(Rupee)
  }

  /**
   * The intended default: the stored currency is the single rupee sign,
   * the same as the settings form's, and it differs from the defaults as
   * written in the currency alone.
   */
  lemma DefaultCurrencyIsRupee()
    ensures DefaultSettings().business.currency == Rupee && |DefaultSettings().business.currency| == 1
    ensures DefaultSettings().business == DefaultBusinessAsWritten().(currency := Rupee)
  {
  }

  function DefaultWorkingHours(): WorkingHours {
    WorkingHours("09:00", "21:00", "Sunday")
  }

  function DefaultInventoryPolicy(): InventoryPolicy {
    InventoryPolicy(10.0, 30.0, true, true, false)
  }

  /**
   * The document `Settings.create({})` stores: every field at its schema
   * default, except that the currency is the intended rupee sign.
   */
  function DefaultSettings(): (s: Settings)
    ensures s.business == DefaultBusinessAsWritten().(currency := Rupee)
    ensures s.workingHours == WorkingHours("09:00", "21:00", "Sunday")
    ensures s.inventory == InventoryPolicy(DefaultLowStockThreshold, 30.0, true, true, false)
    ensures s.inventory.fifoMode
    ensures s.procurement == ProcurementPolicy(true, true, 100.0, true)
    ensures s.alerts == Alerts(true, true, true, false, true, false, Daily)
    ensures s.permissions == Permissions(["procurement.create", "inventory.receive"], ["inventory.view"], 50.0, 10.0)
    ensures s.ui == Ui(Dark, "#3b82f6", Comfortable, true)
    ensures s.security == Security(30.0, 60.0, false)
  {
    Settings(
      DefaultBusiness(),
      DefaultWorkingHours(),
      DefaultInventoryPolicy(),
      ProcurementPolicy(true, true, 100.0, true),
      Alerts(true, true, true, false, true, false, Daily),
      Permissions(["procurement.create", "inventory.receive"], ["inventory.view"], 50.0, 10.0),
      Ui(Dark, "#3b82f6", Comfortable, true),
      Security(30.0, 60.0, false))
  }

  // ------------------------------------------------------------ unique indexes

  /** No two elements of `s` agree on `f`. */
  ghost predicate Distinct<T, K>(s: seq<T>, f: T -> K) {
    forall i, j :: 0 <= i < j < |s| ==> f(s[i]) != f(s[j])
  }

  function UnitId(u: InventoryUnit): Id { u.id }
  function Sku(u: InventoryUnit): string { u.sku }
  function GroupId(g: ProductGroup): Id { g.id }
  function RequestId(r: ProcurementRequest): Id { r.id }
  function SalesId(s: SalesInvoice): Id { s.id }
  function InvoiceNumber(s: SalesInvoice): string { s.invoiceNumber }
  function UserId(u: User): Id { u.id }
  function Email(u: User): string { u.email }
  function SupplierInvoiceId(i: SupplierInvoice): Id { i.id }

  /** Appending an element whose projection is new keeps the projections distinct. */
  lemma DistinctAppend<T, K>(s: seq<T>, f: T -> K, x: T)
    requires Distinct(s, f)
    requires forall i :: 0 <= i < |s| ==> f(s[i]) != f(x)
    ensures Distinct(s + [x], f)
  {
  }

  /** Replacing elements by ones with the same projection keeps the projections distinct. */
  lemma DistinctPointwise<T, K>(s: seq<T>, t: seq<T>, f: T -> K)
    requires Distinct(s, f)
    requires |t| == |s|
    requires forall i :: 0 <= i < |s| ==> f(t[i]) == f(s[i])
    ensures Distinct(t, f)
  {
  }
  lemma {:induction false} DistinctSingleOccurrence<T, K>(a: seq<T>, f: T -> K, x: T)
    requires Distinct(a, f)
    ensures multiset(a)[x] <= 1
    decreases |a|
  {
    if a != [] {
      assert a == [a[0]] + a[1..];
      DistinctSingleOccurrence(a[1..], f, x);
      if a[0] == x {
        assert forall k :: 0 <= k < |a[1..]| ==> a[1..][k] != x by {
          forall k | 0 <= k < |a[1..]| ensures a[1..][k] != x {
            assert f(a[0]) != f(a[k + 1]);
          }
        }
        assert x !in a[1..];
      }
    }
  }

  lemma TwoOccurrences<T>(b: seq<T>, i: nat, j: nat)
    requires i < j < |b| && b[i] == b[j]
    ensures multiset(b)[b[i]] >= 2
  {
    assert b == b[..j] + b[j..];
    assert b[i] == b[..j][i];
    assert b[j] == b[j..][0];
  }

  /** A permutation of a sequence whose projections are distinct has distinct projections too. */
  lemma DistinctPermutation<T, K>(a: seq<T>, b: seq<T>, f: T -> K)
    requires Distinct(a, f)
    requires multiset(a) == multiset(b)
    ensures Distinct(b, f)
  {
    forall i, j | 0 <= i < j < |b|
      ensures f(b[i]) != f(b[j])
    {
      if b[i] == b[j] {
        TwoOccurrences(b, i, j);
        DistinctSingleOccurrence(a, f, b[i]);
      } else {
        assert b[i] in multiset(a) && b[j] in multiset(a);
        var p :| 0 <= p < |a| && a[p] == b[i];
        var q :| 0 <= q < |a| && a[q] == b[j];
        assert p != q;
      }
    }
  }
}
