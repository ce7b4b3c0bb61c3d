/**
 * `/api/procurement`: any signed-in user files a procurement request for a
 * product group (POST), and lists all requests newest first (GET).
 */
module ProcurementApi {
  import opened Base
  import opened Js
  import opened Ordering
  import opened Models
  import opened Casting
  import opened Db

  /**
   * The JSON body of POST. `productGroupId` is the id the body names; a
   * missing key of the other fields reads as `Undefined`.
   */
  datatype CreateBody = CreateBody(productGroupId: BodyId, purpose: Val, requestedQty: Val,
                                   estimatedPrice: Val, expectedDeliveryDate: Val, remarks: Val)

  const NoGroupMessage: string := "Product group is required"
  const PurposeMessage: string := "Purpose must be Retail or In-House"
  const QuantityMessage: string := "Quantity must be a positive number"
  const PriceMessage: string := "Estimated price must be a non-negative number"
  const DateMessage: string := "Expected delivery date is invalid"
  /**
   * The schema's own validation failing on create, answered from the catch
   * block with status 500; a group id that does not cast is one such failure.
   */
  const SchemaMessage: string := "ProcurementRequest validation failed"

  /** The handler's checks passed: the fields it hands to `create`, or the first 400 message. */
  datatype Checked = Accepted(input: RequestInput) | Refused(message: string)

  /** `['RETAIL', 'INHOUSE'].includes(String(purpose))` after the truthiness test. */
  predicate PurposeOk(v: Val) {
    Truthy(v) && (ValToString(v) == "RETAIL" || ValToString(v) == "INHOUSE")
  }

  /** `estimatedPrice !== undefined ? Number(estimatedPrice) : undefined`, with its range check. */
  function Price(v: Val): Option<JsNumber> {
    if v.Undefined? then None else Some(ToNumber(v))
  }

  predicate PriceOk(v: Val) {
    Price(v).None? || (Price(v).value.Real? && Price(v).value.r >= 0.0)
  }

  /** A truthy date must parse; `parseDate` is `new Date(v)`, `None` for an invalid date. */
  predicate DateOk(v: Val, parseDate: Val -> Option<Time>) {
    Truthy(v) ==> parseDate(v).Some?
  }

  /** The body every check accepts, stated independently of their order. */
  predicate BodyOk(b: CreateBody, parseDate: Val -> Option<Time>) {
    !b.productGroupId.Falsy? && PurposeOk(b.purpose)
    && ToNumber(b.requestedQty).Real? && ToNumber(b.requestedQty).r > 0.0
    && PriceOk(b.estimatedPrice) && DateOk(b.expectedDeliveryDate, parseDate)
  }

  /** The checks of POST in source order; the first that fails decides the message. */
  function Check(b: CreateBody, createdBy: Id, parseDate: Val -> Option<Time>): (r: Checked)
    ensures r.Refused? ==> r.message in {NoGroupMessage, PurposeMessage, QuantityMessage, PriceMessage, DateMessage}
    ensures b.productGroupId.Falsy? ==> r == Refused(NoGroupMessage)
    ensures r.Accepted? ==>
      (r.input.productGroupId.Some? <==> b.productGroupId.ObjectId?)
      && (r.input.productGroupId.Some? ==> r.input.productGroupId.value == b.productGroupId.id)
      && r.input.createdBy == Some(createdBy)
      && ToNumber(b.requestedQty).Real? && r.input.requestedQty == Some(ToNumber(b.requestedQty).r)
  {
    if b.productGroupId.Falsy? then Refused(NoGroupMessage)
    else if !PurposeOk(b.purpose) then Refused(PurposeMessage)
    else
      var qty := ToNumber(b.requestedQty);
      if qty.NaN? || qty.r <= 0.0 then Refused(QuantityMessage)
      else if !PriceOk(b.estimatedPrice) then Refused(PriceMessage)
      else if !DateOk(b.expectedDeliveryDate, parseDate) then Refused(DateMessage)
      else
        var price := if Price(b.estimatedPrice).Some? then Some(Price(b.estimatedPrice).value.r) else None;
        var date := if Truthy(b.expectedDeliveryDate) then parseDate(b.expectedDeliveryDate) else None;
        var remarks := CastString(b.remarks);
        var group := if b.productGroupId.ObjectId? then Some(b.productGroupId.id) else None;
        Accepted(RequestInput(group, Some(ValToString(b.purpose)), Some(qty.r), price, date,
          if remarks.Value? then Some(remarks.v) else None, Some(createdBy)))
  }

  /** POST as a function of the request collection: the new collection and the reply. */
  function CreateOutcome(requests: seq<ProcurementRequest>, session: Option<Session>, b: CreateBody,
                         parseDate: Val -> Option<Time>, id: Id, now: Time)
    : (r: (seq<ProcurementRequest>, Http<ProcurementRequest>))
    ensures session.None? ==> r == (requests, Err(403, "Forbidden"))
    ensures r.1.Err? ==> r.0 == requests
    ensures r.1.Ok? ==>
      session.Some? && BodyOk(b, parseDate) && b.productGroupId.ObjectId? && r.0 == requests + [r.1.value]
      && r.1.value.id == id && r.1.value.status == PENDING
  {
    if session.None? then (requests, Err(403, "Forbidden"))
    else
      match Check(b, session.value.userId, parseDate)
      case Refused(m) => (requests, Err(400, m))
      case Accepted(input) =>
        match NewRequest(id, input, now)
        case None => (requests, Err(500, SchemaMessage))
        case Some(d) => (requests + [d], Ok(201, d))
  }

  method Post(db: Store, session: Option<Session>, b: CreateBody, parseDate: Val -> Option<Time>, now: Time)
    returns (reply: Http<ProcurementRequest>)
    requires db.Valid()
    modifies db
    ensures db.Valid()
    ensures (db.requests, reply) == CreateOutcome(old(db.requests), session, b, parseDate, old(db.nextId), now)
    ensures db.nextId == old(db.nextId) + (if reply.Ok? then 1 else 0)
    ensures db.groups == old(db.groups) && db.units == old(db.units) && db.users == old(db.users)
    ensures db.sales == old(db.sales) && db.supplierInvoices == old(db.supplierInvoices)
    ensures db.settings == old(db.settings)
  {
    if session.None? {
      return Err(403, "Forbidden");
    }
    var checked := Check(b, session.value.userId, parseDate);
    if checked.Refused? {
      return Err(400, checked.message);
    }
    var made := NewRequest(db.nextId, checked.input, now);
    if made.None? {
      return Err(500, SchemaMessage);
    }
    var d := made.value;
    DistinctAppend(db.requests, RequestId, d);
    db.requests := db.requests + [d];
    db.nextId := db.nextId + 1;
    reply := Ok(201, d);
  }

  /** A listed request with its group populated, `None` when the group is gone. */
  datatype Listed = Listed(request: ProcurementRequest, group: Option<ProductGroup>)

  function NewestFirst(l: Listed): Key {
    (-l.request.createdAt, 0)
  }

  function Populate(requests: seq<ProcurementRequest>, groups: seq<ProductGroup>): (r: seq<Listed>)
    ensures |r| == |requests|
  {
    seq(|requests|, i requires 0 <= i < |requests| =>
      Listed(requests[i], GroupById(groups, requests[i].productGroupId)))
  }

  /** GET: every request with its group, newest first; 401 without a session. */
  function List(requests: seq<ProcurementRequest>, groups: seq<ProductGroup>, session: Option<Session>)
    : (r: Http<seq<Listed>>)
    ensures session.None? <==> r == Err(401, "Unauthorized")
    ensures r.Ok? ==> r.status == 200 && |r.value| == |requests|
    ensures r.Ok? ==> forall i, j :: 0 <= i < j < |r.value| ==>
      r.value[i].request.createdAt >= r.value[j].request.createdAt
  {
    if session.None? then Err(401, "Unauthorized")
    else Ok(200, SortByKey(Populate(requests, groups), NewestFirst))
  }

  // -------------------------------------------------------------------- lemmas

  /**
   * The checks accept exactly the bodies that meet every condition; of those,
   * the schema then takes exactly the ones whose group id casts.
   */
  lemma CheckIffBodyOk(b: CreateBody, s: Session, parseDate: Val -> Option<Time>)
    ensures Check(b, s.userId, parseDate).Accepted? <==> BodyOk(b, parseDate)
    ensures Check(b, s.userId, parseDate).Accepted? ==>
      (RequestInputValid(Check(b, s.userId, parseDate).input) <==> b.productGroupId.ObjectId?)
  {
  }

  /** Every stored request is listed, together with its own group. */
  lemma ListedRequests(requests: seq<ProcurementRequest>, groups: seq<ProductGroup>, s: Session, i: nat)
    requires i < |requests|
    ensures Listed(requests[i], GroupById(groups, requests[i].productGroupId)) in List(requests, groups, Some(s)).value
  {
    var p := Populate(requests, groups);
    SortedMembership(p, NewestFirst, p[i]);
  }

  /** Without a session POST answers 403, and any refusal leaves the collection as it was. */
  lemma RefusalWritesNothing(requests: seq<ProcurementRequest>, session: Option<Session>, b: CreateBody,
                             parseDate: Val -> Option<Time>, id: Id, now: Time)
    ensures session.None? ==> CreateOutcome(requests, session, b, parseDate, id, now).1 == Err(403, "Forbidden")
    ensures CreateOutcome(requests, session, b, parseDate, id, now).1.Err? ==>
      CreateOutcome(requests, session, b, parseDate, id, now).0 == requests
  {
  }

  /**
   * A signed-in caller with a valid body adds exactly one request, at the
   * end: PENDING, nothing approved or received, the parsed quantity, filed
   * by the caller.
   */
  lemma CreatedRequest(requests: seq<ProcurementRequest>, s: Session, b: CreateBody,
                       parseDate: Val -> Option<Time>, id: Id, now: Time)
    requires BodyOk(b, parseDate) && b.productGroupId.ObjectId?
    ensures var (after, reply) := CreateOutcome(requests, Some(s), b, parseDate, id, now);
      reply.Ok? && reply.status == 201 && after == requests + [reply.value]
      && reply.value.id == id && reply.value.status == PENDING
      && reply.value.approvedQty == 0.0 && reply.value.receivedQty == 0.0
      && Real(reply.value.requestedQty) == ToNumber(b.requestedQty) && reply.value.requestedQty > 0.0
      && reply.value.createdBy == s.userId && reply.value.productGroupId == b.productGroupId.id
  {
    CheckIffBodyOk(b, s, parseDate);
  }

  /**
   * A truthy group id that does not cast to an ObjectId, such as "abc",
   * passes every check of the handler; `create` then fails its cast and the
   * catch block answers 500, writing nothing.
   */
  lemma UncastableGroupFails(requests: seq<ProcurementRequest>, s: Session, b: CreateBody,
                             parseDate: Val -> Option<Time>, id: Id, now: Time)
    requires b.productGroupId.Uncastable?
    ensures Check(b, s.userId, parseDate).Accepted? <==> BodyOk(b, parseDate)
    ensures BodyOk(b, parseDate) ==>
      CreateOutcome(requests, Some(s), b, parseDate, id, now) == (requests, Err(500, SchemaMessage))
  {
    CheckIffBodyOk(b, s, parseDate);
  }

  /** A fractional quantity passes: only finiteness and sign are checked. */
  lemma FractionalQuantityAccepted(b: CreateBody, s: Session, parseDate: Val -> Option<Time>)
    requires !b.productGroupId.Falsy? && b.purpose == Str("RETAIL") && b.requestedQty == Num(2.5)
    requires b.estimatedPrice.Undefined? && b.expectedDeliveryDate.Undefined?
    ensures Check(b, s.userId, parseDate).Accepted? && Check(b, s.userId, parseDate).input.requestedQty == Some(2.5)
  {
  }

  /** An omitted price stays unset, while `null` reads as `Number(null)`, which is 0. */
  lemma PriceDefaults(b: CreateBody, s: Session, parseDate: Val -> Option<Time>)
    requires Check(b, s.userId, parseDate).Accepted?
    ensures b.estimatedPrice.Undefined? ==> Check(b, s.userId, parseDate).input.estimatedPrice == None
    ensures b.estimatedPrice.Null? ==> Check(b, s.userId, parseDate).input.estimatedPrice == Some(0.0)
  {
  }

  /** A negative or non-numeric price, or a truthy date that does not parse, is refused with its message. */
  lemma BadPriceOrDate(b: CreateBody, s: Session, parseDate: Val -> Option<Time>)
    requires !b.productGroupId.Falsy? && PurposeOk(b.purpose)
    requires ToNumber(b.requestedQty).Real? && ToNumber(b.requestedQty).r > 0.0
    ensures !PriceOk(b.estimatedPrice) ==> Check(b, s.userId, parseDate) == Refused(PriceMessage)
    ensures PriceOk(b.estimatedPrice) && Truthy(b.expectedDeliveryDate) && parseDate(b.expectedDeliveryDate).None? ==>
      Check(b, s.userId, parseDate) == Refused(DateMessage)
  {
  }
}
