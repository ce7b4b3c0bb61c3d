/**
 * `/api/sales-invoices`: signed-in users list the sales invoices newest
 * first (GET) and create one from a body of line items (POST). The handler
 * computes the totals, normalises the items, numbers the invoice from the
 * day and a random suffix, and the invoice schema then decides whether the
 * document can be stored.
 */
module SalesApi {
  import opened Base
  import opened Js
  import opened Models
  import opened Dates
  import opened Ordering
  import opened Db

  /** One element of `body.items`, by the three keys the handler reads. */
  datatype ItemBody = ItemBody(description: Val, quantity: Val, unitPrice: Val)

  /** The POST body; `items` is `None` when `body.items` is not an array. */
  datatype SaleBody = SaleBody(customerName: Val, customerEmail: Val, items: Option<seq<ItemBody>>,
                               taxRate: Val, notes: Val)

  const ValidationFailed: string := "SalesInvoice validation failed"
  const DuplicateNumber: string := "duplicate key: invoiceNumber"

  /** `Array.isArray(body.items) ? body.items : []` */
  function ItemsOf(b: SaleBody): seq<ItemBody> {
    if b.items.Some? then b.items.value else []
  }

  /** The summand of the subtotal: `Number(it.quantity) * Number(it.unitPrice)`, with no default. */
  function Product(it: ItemBody): JsNumber {
    Mul(ToNumber(it.quantity), ToNumber(it.unitPrice))
  }

  /** `items.reduce((sum, it) => sum + Product(it), 0)`, folded from the left. */
  function Subtotal(items: seq<ItemBody>): JsNumber
    decreases |items|
  {
    if items == [] then Real(0.0)
    else Add(Subtotal(items[..|items| - 1]), Product(items[|items| - 1]))
  }

  /** `Number(body.taxRate || 0)` */
  function TaxRate(b: SaleBody): JsNumber {
    ToNumber(Or(b.taxRate, Num(0.0)))
  }

  /** `subtotal * (taxRate / 100)` */
  function TaxAmount(subtotal: JsNumber, rate: JsNumber): JsNumber {
    if subtotal.Real? && rate.Real? then Real(subtotal.r * (rate.r / 100.0)) else NaN
  }

  /** A normalised item before the schema casts it. */
  datatype Line = Line(description: string, quantity: JsNumber, unitPrice: JsNumber, lineTotal: JsNumber)

  /** `Number(v || 0)`: a falsy field counts as 0. */
  function OrZero(v: Val): JsNumber {
    ToNumber(Or(v, Num(0.0)))
  }

  /** `String(v || '')`: a missing or empty text becomes ''. */
  function TextOr(v: Val): (t: string)
    ensures v.Undefined? || v == Str("") ==> t == ""
    ensures v.Str? ==> t == v.s
  {
    ValToString(Or(v, Str("")))
  }

  /** The handler's `items.map(...)` step for one item. */
  function Normalize(it: ItemBody): Line {
    Line(TextOr(it.description), OrZero(it.quantity), OrZero(it.unitPrice),
         Mul(OrZero(it.quantity), OrZero(it.unitPrice)))
  }

  function Normalized(items: seq<ItemBody>): (lines: seq<Line>)
    ensures |lines| == |items|
    ensures forall k :: 0 <= k < |items| ==> lines[k] == Normalize(items[k])
  {
    seq(|items|, k requires 0 <= k < |items| => Normalize(items[k]))
  }

  /** The sum of the line totals, folded from the left like the subtotal. */
  function SumLines(lines: seq<Line>): JsNumber
    decreases |lines|
  {
    if lines == [] then Real(0.0)
    else Add(SumLines(lines[..|lines| - 1]), lines[|lines| - 1].lineTotal)
  }

  /** `s.substring(start, end)` for `start <= end`: both ends clamped to the string. */
  function Substring(s: string, start: nat, end: nat): (r: string)
    requires start <= end
    ensures |r| <= end - start
  {
    var e := if end <= |s| then end else |s|;
    var b := if start <= e then start else e;
    s[b..e]
  }

  /**
   * The random part: six characters of `random`, the text of
   * `Math.random().toString(36)`, after its leading "0.", upper-cased.
   */
  function Suffix(random: string): string {
    ToUpper(Substring(random, 2, 8))
  }

  /** `SI-${dd}${mm}${yyyy}-${rand}` */
  function NumberFor(day: CalendarDay, random: string): (n: string)
    ensures |n| >= 3 && n[..3] == "SI-"
  {
    var rest := DdMmYyyy(day) + "-" + Suffix(random);
    assert ("SI-" + rest)[..3] == "SI-";
    "SI-" + rest
  }

  /** The document the handler passes to `SalesInvoice.create`, before casting. */
  datatype Draft = Draft(invoiceNumber: string, customerName: string, customerEmail: string, lines: seq<Line>,
                         subtotal: JsNumber, taxRate: JsNumber, taxAmount: JsNumber, totalAmount: JsNumber,
                         notes: string, createdBy: Id)

  function DraftOf(b: SaleBody, userId: Id, day: CalendarDay, random: string): (d: Draft)
    ensures |d.invoiceNumber| >= 3 && d.invoiceNumber[..3] == "SI-" && d.createdBy == userId
    ensures |d.lines| == |ItemsOf(b)|
    ensures d.taxAmount == TaxAmount(d.subtotal, d.taxRate) && d.totalAmount == Add(d.subtotal, d.taxAmount)
  {
    var items := ItemsOf(b);
    var subtotal := Subtotal(items);
    var rate := TaxRate(b);
    var tax := TaxAmount(subtotal, rate);
    Draft(NumberFor(day, random), TextOr(b.customerName), TextOr(b.customerEmail),
          Normalized(items), subtotal, rate, tax, Add(subtotal, tax), TextOr(b.notes), userId)
  }

  /** A line the item schema accepts: a description and three numbers that cast (NaN does not). */
  predicate LineStorable(l: Line) {
    l.description != "" && l.quantity.Real? && l.unitPrice.Real? && l.lineTotal.Real?
  }

  /** The invoice schema: required texts non-empty, every number castable. */
  predicate Storable(d: Draft) {
    d.customerName != "" && (forall k :: 0 <= k < |d.lines| ==> LineStorable(d.lines[k]))
    && d.subtotal.Real? && d.taxRate.Real? && d.taxAmount.Real? && d.totalAmount.Real?
  }

  function Stored(d: Draft, id: Id, now: Time): SalesInvoice
    requires Storable(d)
  {
    SalesInvoice(id, d.invoiceNumber, d.customerName, d.customerEmail,
      seq(|d.lines|, k requires 0 <= k < |d.lines| && LineStorable(d.lines[k]) =>
        LineItem(d.lines[k].description, d.lines[k].quantity.r, d.lines[k].unitPrice.r, d.lines[k].lineTotal.r)),
      d.subtotal.r, d.taxRate.r, d.taxAmount.r, d.totalAmount.r, d.notes, d.createdBy, now)
  }

  function Numbers(sales: seq<SalesInvoice>): set<string> {
    set i | 0 <= i < |sales| :: sales[i].invoiceNumber
  }

  /** `SalesInvoice.create(d)`: the schema's verdict, then the unique index on the number. */
  function Commit(sales: seq<SalesInvoice>, d: Draft, id: Id, now: Time): (r: (seq<SalesInvoice>, Http<SalesInvoice>))
    ensures r.1.Err? ==> r.0 == sales
    ensures r.1.Ok? ==>
      Storable(d) && d.invoiceNumber !in Numbers(sales) && r.0 == sales + [r.1.value]
      && r.1.value.id == id && r.1.value.invoiceNumber == d.invoiceNumber && r.1.value.createdBy == d.createdBy
  {
    if !Storable(d) then (sales, Err(500, ValidationFailed))
    else if d.invoiceNumber in Numbers(sales) then (sales, Err(500, DuplicateNumber))
    else (sales + [Stored(d, id, now)], Ok(201, Stored(d, id, now)))
  }

  /** POST as a function of the stored invoices: the new collection and the reply. */
  function CreateOutcome(sales: seq<SalesInvoice>, session: Option<Session>, b: SaleBody, id: Id,
                         day: CalendarDay, random: string, now: Time): (r: (seq<SalesInvoice>, Http<SalesInvoice>))
    ensures session.None? ==> r == (sales, Err(401, "Unauthorized"))
    ensures r.1.Err? ==> r.0 == sales
    ensures r.1.Ok? ==>
      session.Some? && r.0 == sales + [r.1.value] && r.1.value.createdBy == session.value.userId
      && r.1.value.invoiceNumber !in Numbers(sales)
  {
    if session.None? then (sales, Err(401, "Unauthorized"))
    else Commit(sales, DraftOf(b, session.value.userId, day, random), id, now)
  }

  method Post(db: Store, session: Option<Session>, b: SaleBody, day: CalendarDay, random: string, now: Time)
    returns (reply: Http<SalesInvoice>)
    requires db.Valid()
    modifies db
    ensures db.Valid()
    ensures (db.sales, reply) == CreateOutcome(old(db.sales), session, b, old(db.nextId), day, random, now)
    ensures db.nextId == old(db.nextId) + (if reply.Ok? then 1 else 0)
    ensures db.groups == old(db.groups) && db.units == old(db.units) && db.requests == old(db.requests)
    ensures db.supplierInvoices == old(db.supplierInvoices) && db.users == old(db.users)
    ensures db.settings == old(db.settings)
  {
    if session.None? {
      return Err(401, "Unauthorized");
    }
    var d := DraftOf(b, session.value.userId, day, random);
    CommitSpec(db.sales, d, db.nextId, now);
    if !Storable(d) {
      return Err(500, ValidationFailed);
    }
    if d.invoiceNumber in Numbers(db.sales) {
      return Err(500, DuplicateNumber);
    }
    var inv := Stored(d, db.nextId, now);
    StoredSpec(d, db.nextId, now);
    Insert(db, inv);
    reply := Ok(201, inv);
  }

  /** The insert itself: the invoice goes at the end under the next id. */
  method Insert(db: Store, inv: SalesInvoice)
    requires db.Valid() && inv.id == db.nextId && inv.invoiceNumber !in Numbers(db.sales)
    modifies db
    ensures db.Valid()
    ensures db.sales == old(db.sales) + [inv] && db.nextId == old(db.nextId) + 1
    ensures db.groups == old(db.groups) && db.units == old(db.units) && db.requests == old(db.requests)
    ensures db.supplierInvoices == old(db.supplierInvoices) && db.users == old(db.users)
    ensures db.settings == old(db.settings)
  {
    assert forall i :: 0 <= i < |db.sales| ==> db.sales[i].invoiceNumber in Numbers(db.sales);
    DistinctAppend(db.sales, SalesId, inv);
    DistinctAppend(db.sales, InvoiceNumber, inv);
    db.sales := db.sales + [inv];
    db.nextId := db.nextId + 1;
  }

  function NewestFirst(s: SalesInvoice): Key {
    (-s.createdAt, 0)
  }

  /** GET: every invoice, newest first; 401 without a session. */
  function List(sales: seq<SalesInvoice>, session: Option<Session>): (r: Http<seq<SalesInvoice>>)
    ensures session.None? <==> r == Err(401, "Unauthorized")
    ensures r.Ok? ==> r.status == 200 && multiset(r.value) == multiset(sales)
    ensures r.Ok? ==> forall i, j :: 0 <= i < j < |r.value| ==> r.value[i].createdAt >= r.value[j].createdAt
  {
    if session.None? then Err(401, "Unauthorized")
    else Ok(200, SortByKey(sales, NewestFirst))
  }

  // -------------------------------------------------------------------- lemmas

  /** A present field with the `|| 0` default reads as without it: only a missing one differs. */
  lemma OrZeroPresent(v: Val)
    ensures !v.Undefined? ==> OrZero(v) == ToNumber(v)
    ensures OrZero(Undefined) == Real(0.0) && ToNumber(Undefined) == NaN
  {
    if v.Str? && v.s == "" {
      TrimUnchanged("");
    }
  }

  /**
   * When every item carries a quantity and a unit price, the subtotal is
   * the sum of the stored line totals.
   */
  lemma {:induction false} SubtotalIsSumOfLines(items: seq<ItemBody>)
    requires forall k :: 0 <= k < |items| ==> !items[k].quantity.Undefined? && !items[k].unitPrice.Undefined?
    ensures Subtotal(items) == SumLines(Normalized(items))
    decreases |items|
  {
    if items != [] {
      var n := |items| - 1;
      SubtotalIsSumOfLines(items[..n]);
      assert Normalized(items)[..n] == Normalized(items[..n]);
      OrZeroPresent(items[n].quantity);
      OrZeroPresent(items[n].unitPrice);
    }
  }

  /**
   * The schema step: a draft is stored exactly when it is storable and its
   * number is free, at the end of the collection; otherwise nothing changes.
   */
  lemma CommitSpec(sales: seq<SalesInvoice>, d: Draft, id: Id, now: Time)
    ensures var (after, reply) := Commit(sales, d, id, now);
      (reply.Ok? <==> Storable(d) && d.invoiceNumber !in Numbers(sales))
      && (reply.Err? ==> after == sales && reply.status == 500)
      && (!Storable(d) ==> reply == Err(500, ValidationFailed))
      && (reply.Ok? ==> reply.status == 201 && reply.value == Stored(d, id, now) && after == sales + [reply.value])
  {
  }

  /** A stored draft keeps its numbers, texts and lines, in order. */
  lemma StoredSpec(d: Draft, id: Id, now: Time)
    requires Storable(d)
    ensures var inv := Stored(d, id, now);
      inv.id == id && inv.createdAt == now && inv.invoiceNumber == d.invoiceNumber && inv.createdBy == d.createdBy
      && inv.customerName == d.customerName && inv.customerEmail == d.customerEmail && inv.notes == d.notes
      && Real(inv.subtotal) == d.subtotal && Real(inv.taxRate) == d.taxRate
      && Real(inv.taxAmount) == d.taxAmount && Real(inv.totalAmount) == d.totalAmount
      && |inv.items| == |d.lines|
      && forall k :: 0 <= k < |d.lines| ==>
           inv.items[k].description == d.lines[k].description && Real(inv.items[k].quantity) == d.lines[k].quantity
           && Real(inv.items[k].unitPrice) == d.lines[k].unitPrice && Real(inv.items[k].lineTotal) == d.lines[k].lineTotal
  {
  }

  /**
   * The draft of a body: its lines are the normalised items, each line's
   * total is its quantity times its price, the tax is the rate's share of
   * the subtotal and the total their sum; missing texts become ''.
   */
  lemma DraftSpec(b: SaleBody, userId: Id, day: CalendarDay, random: string)
    ensures var d := DraftOf(b, userId, day, random);
      d.invoiceNumber == NumberFor(day, random) && d.createdBy == userId
      && d.lines == Normalized(ItemsOf(b)) && d.subtotal == Subtotal(ItemsOf(b)) && d.taxRate == TaxRate(b)
      && d.taxAmount == TaxAmount(d.subtotal, d.taxRate) && d.totalAmount == Add(d.subtotal, d.taxAmount)
      && (forall k :: 0 <= k < |d.lines| ==> d.lines[k].lineTotal == Mul(d.lines[k].quantity, d.lines[k].unitPrice))
      && (b.customerName.Undefined? || b.customerName == Str("") ==> d.customerName == "")
      && (b.customerEmail.Undefined? ==> d.customerEmail == "")
      && (b.notes.Undefined? ==> d.notes == "")
  {
    DraftNumbers(b, userId, day, random);
    DraftTexts(b, userId, day, random);
  }

  lemma DraftNumbers(b: SaleBody, userId: Id, day: CalendarDay, random: string)
    ensures var d := DraftOf(b, userId, day, random);
      d.lines == Normalized(ItemsOf(b)) && d.subtotal == Subtotal(ItemsOf(b)) && d.taxRate == TaxRate(b)
      && d.taxAmount == TaxAmount(d.subtotal, d.taxRate) && d.totalAmount == Add(d.subtotal, d.taxAmount)
      && (forall k :: 0 <= k < |d.lines| ==> d.lines[k].lineTotal == Mul(d.lines[k].quantity, d.lines[k].unitPrice))
  {
    var d := DraftOf(b, userId, day, random);
    var items := ItemsOf(b);
    assert d.lines == Normalized(items) && d.subtotal == Subtotal(items);
    forall k | 0 <= k < |d.lines|
      ensures d.lines[k].lineTotal == Mul(d.lines[k].quantity, d.lines[k].unitPrice)
    {
      assert d.lines[k] == Normalize(items[k]);
    }
  }

  lemma DraftTexts(b: SaleBody, userId: Id, day: CalendarDay, random: string)
    ensures var d := DraftOf(b, userId, day, random);
      d.invoiceNumber == NumberFor(day, random) && d.createdBy == userId
      && (b.customerName.Undefined? || b.customerName == Str("") ==> d.customerName == "")
      && (b.customerEmail.Undefined? ==> d.customerEmail == "")
      && (b.notes.Undefined? ==> d.notes == "")
  {
    var d := DraftOf(b, userId, day, random);
    assert d.customerName == TextOr(b.customerName) && d.customerEmail == TextOr(b.customerEmail);
    assert d.notes == TextOr(b.notes);
  }

  /**
   * An item without a quantity gets a line total of 0, yet it makes the
   * subtotal NaN, which the schema refuses: the whole invoice fails.
   */
  lemma MissingQuantityFails(sales: seq<SalesInvoice>, s: Session, b: SaleBody, id: Id, day: CalendarDay,
                             random: string, now: Time)
    requires b.items == Some([ItemBody(Str("Haircut"), Undefined, Num(250.0))])
    ensures Normalize(b.items.value[0]).lineTotal == Real(0.0)
    ensures Subtotal(ItemsOf(b)) == NaN
    ensures CreateOutcome(sales, Some(s), b, id, day, random, now) == (sales, Err(500, ValidationFailed))
  {
    var items := ItemsOf(b);
    assert items[..0] == [];
    OrZeroPresent(Undefined);
    var d := DraftOf(b, s.userId, day, random);
    DraftSpec(b, s.userId, day, random);
    CommitSpec(sales, d, id, now);
  }

  /**
   * A created invoice is appended with the next id and a fresh number: its
   * lines are the items in order, each line total is its quantity times its
   * price, the tax is the rate's share of the subtotal and the total is
   * their sum; missing texts are stored as ''.
   */
  lemma CreatedInvoice(sales: seq<SalesInvoice>, s: Session, b: SaleBody, id: Id, day: CalendarDay,
                       random: string, now: Time)
    requires CreateOutcome(sales, Some(s), b, id, day, random, now).1.Ok?
    ensures var (after, reply) := CreateOutcome(sales, Some(s), b, id, day, random, now);
      var inv := reply.value;
      reply.status == 201 && after == sales + [inv] && inv.id == id && inv.createdBy == s.userId
      && inv.invoiceNumber == NumberFor(day, random) && inv.invoiceNumber !in Numbers(sales)
      && |inv.items| == |ItemsOf(b)|
      && (forall k :: 0 <= k < |inv.items| ==>
            Real(inv.items[k].lineTotal) == Mul(Real(inv.items[k].quantity), Real(inv.items[k].unitPrice))
            && inv.items[k].description != ""
            && Real(inv.items[k].quantity) == OrZero(ItemsOf(b)[k].quantity))
      && Real(inv.subtotal) == Subtotal(ItemsOf(b))
      && Real(inv.taxAmount) == TaxAmount(Real(inv.subtotal), Real(inv.taxRate))
      && Real(inv.totalAmount) == Add(Real(inv.subtotal), Real(inv.taxAmount))
      && inv.customerName != ""
      && (b.customerEmail.Undefined? ==> inv.customerEmail == "")
      && (b.notes.Undefined? ==> inv.notes == "")
  {
    var d := DraftOf(b, s.userId, day, random);
    DraftSpec(b, s.userId, day, random);
    CommitSpec(sales, d, id, now);
    StoredSpec(d, id, now);
    var inv := Stored(d, id, now);
    assert CreateOutcome(sales, Some(s), b, id, day, random, now) == (sales + [inv], Ok(201, inv));
    forall k | 0 <= k < |inv.items|
      ensures Real(inv.items[k].lineTotal) == Mul(Real(inv.items[k].quantity), Real(inv.items[k].unitPrice))
      ensures inv.items[k].description != ""
      ensures Real(inv.items[k].quantity) == OrZero(ItemsOf(b)[k].quantity)
    {
      assert LineStorable(d.lines[k]);
      assert d.lines[k] == Normalize(ItemsOf(b)[k]);
    }
  }

  /** A body whose `items` is not an array makes an invoice of no lines and a subtotal of 0. */
  lemma NonArrayItems(sales: seq<SalesInvoice>, s: Session, b: SaleBody, id: Id, day: CalendarDay,
                      random: string, now: Time)
    requires b.items.None?
    requires CreateOutcome(sales, Some(s), b, id, day, random, now).1.Ok?
    ensures var inv := CreateOutcome(sales, Some(s), b, id, day, random, now).1.value;
      inv.items == [] && inv.subtotal == 0.0 && inv.taxAmount == 0.0 && inv.totalAmount == 0.0
  {
    var d := DraftOf(b, s.userId, day, random);
    DraftSpec(b, s.userId, day, random);
    CommitSpec(sales, d, id, now);
    StoredSpec(d, id, now);
  }

  /** Without a tax rate the rate is 0, so the total is the subtotal. */
  lemma NoTaxRate(b: SaleBody)
    requires b.taxRate.Undefined? && Subtotal(ItemsOf(b)).Real?
    ensures TaxRate(b) == Real(0.0)
    ensures TaxAmount(Subtotal(ItemsOf(b)), TaxRate(b)) == Real(0.0)
  {
  }

  /** A missing or empty customer name is refused by the schema, and nothing is stored. */
  lemma EmptyCustomerRefused(sales: seq<SalesInvoice>, s: Session, b: SaleBody, id: Id, day: CalendarDay,
                             random: string, now: Time)
    requires b.customerName == Undefined || b.customerName == Str("")
    ensures CreateOutcome(sales, Some(s), b, id, day, random, now) == (sales, Err(500, ValidationFailed))
  {
    var d := DraftOf(b, s.userId, day, random);
    DraftSpec(b, s.userId, day, random);
    CommitSpec(sales, d, id, now);
  }

  /** Every refusal leaves the invoices as they were; without a session the reply is 401. */
  lemma RefusalWritesNothing(sales: seq<SalesInvoice>, session: Option<Session>, b: SaleBody, id: Id,
                             day: CalendarDay, random: string, now: Time)
    ensures session.None? ==> CreateOutcome(sales, session, b, id, day, random, now).1 == Err(401, "Unauthorized")
    ensures CreateOutcome(sales, session, b, id, day, random, now).1.Err? ==>
      CreateOutcome(sales, session, b, id, day, random, now).0 == sales
  {
    if session.Some? {
      CommitSpec(sales, DraftOf(b, session.value.userId, day, random), id, now);
    }
  }

  /**
   * For a real calendar day the number is "SI-", the eight-digit day stamp
   * that reads back as the day, '-', and at most six random characters with
   * no lower-case letter: at most eighteen characters.
   */
  lemma NumberShape(day: CalendarDay, random: string)
    requires ValidDay(day)
    ensures var n := NumberFor(day, random);
      12 <= |n| <= 18 && n[..3] == "SI-" && n[3..11] == DdMmYyyy(day) && n[11] == '-'
      && DigitsValue(n[3..5]) == day.day && DigitsValue(n[5..7]) == day.month && DigitsValue(n[7..11]) == day.year
      && n[12..] == Suffix(random) && (forall i :: 12 <= i < |n| ==> !('a' <= n[i] <= 'z'))
  {
    StampRoundTrip(day);
    var stamp := DdMmYyyy(day);
    var n := NumberFor(day, random);
    assert n == "SI-" + stamp + "-" + Suffix(random);
    assert n[3..11] == stamp;
    assert n[3..5] == stamp[..2] && n[5..7] == stamp[2..4] && n[7..11] == stamp[4..];
    assert n[12..] == Suffix(random);
  }

  /** Every stored invoice is listed, newest first. */
  lemma ListedInvoices(sales: seq<SalesInvoice>, s: Session, i: nat)
    requires i < |sales|
    ensures sales[i] in List(sales, Some(s)).value
  {
    SortedMembership(sales, NewestFirst, sales[i]);
  }
}
