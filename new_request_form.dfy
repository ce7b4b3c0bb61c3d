/**
 * The "New Procurement Request" modal: the form's fields, the checks it runs
 * before posting, and what it does with the reply of `/api/procurement`.
 */
module NewRequestForm {
  import opened Base
  import opened Js
  import opened Models
  import opened Casting
  import ProcurementApi

  /**
   * The form's state. `productGroupId` is the chosen option of the product
   * select, `None` for its empty "Select Product" option; the other fields
   * are the texts of their inputs.
   */
  datatype Form = Form(productGroupId: Option<Id>, purpose: string, requestedQty: string,
                       estimatedPrice: string, expectedDeliveryDate: string, remarks: string)

  /** The inputs whose `onChange` replaces one field of the form. */
  datatype Input = ProductSelect(id: Option<Id>) | PurposeSelect(p: string) | QtyInput(q: string)
                 | PriceInput(e: string) | DateInput(d: string) | RemarksInput(t: string)

  const InitialForm: Form := Form(None, "RETAIL", "", "", "", "")

  const ProductRequired: string := "Product is required"
  const QuantityMessage: string := "Quantity must be a positive number"
  const PriceMessage: string := "Estimated price must be a non-negative number"
  const DateRequired: string := "Expected delivery date is required"
  const CreatedMessage: string := "Request created successfully"

  /** `{ ...formData, field: value }` */
  function Apply(f: Form, i: Input): Form {
    match i
    case ProductSelect(id) => f.(productGroupId := id)
    case PurposeSelect(p) => f.(purpose := p)
    case QtyInput(q) => f.(requestedQty := q)
    case PriceInput(e) => f.(estimatedPrice := e)
    case DateInput(d) => f.(expectedDeliveryDate := d)
    case RemarksInput(t) => f.(remarks := t)
  }

  /** `Number(s)` is finite and positive. */
  predicate PositiveNumber(s: string) {
    ParseNumber(s).Real? && ParseNumber(s).r > 0.0
  }

  /** `Number(s)` is finite and not negative. */
  predicate NonNegativeNumber(s: string) {
    ParseNumber(s).Real? && ParseNumber(s).r >= 0.0
  }

  /** The form every check accepts, stated independently of their order. */
  predicate Complete(f: Form) {
    f.productGroupId.Some? && PositiveNumber(f.requestedQty) && NonNegativeNumber(f.estimatedPrice)
    && f.expectedDeliveryDate != ""
  }

  /** The checks of `handleSubmit` in source order: the message of the first that fails. */
  function FormError(f: Form): Option<string> {
    if f.productGroupId.None? then Some(ProductRequired)
    else if !PositiveNumber(f.requestedQty) then Some(QuantityMessage)
    else if !NonNegativeNumber(f.estimatedPrice) then Some(PriceMessage)
    else if f.expectedDeliveryDate == "" then Some(DateRequired)
    else None
  }

  /** `JSON.stringify(formData)` as the route reads it: every field a string. */
  function Body(f: Form): ProcurementApi.CreateBody {
    ProcurementApi.CreateBody(SentId(f.productGroupId), Str(f.purpose), Str(f.requestedQty), Str(f.estimatedPrice),
                              Str(f.expectedDeliveryDate), Str(f.remarks))
  }

  class Modal {
    var form: Form
    var loading: bool
    var error: string
    var success: string

    constructor ()
      ensures form == InitialForm && !loading && error == "" && success == ""
    {
      form, loading, error, success := InitialForm, false, "", "";
    }

    /** One input's `onChange`: that field takes the new value, the others keep theirs. */
    method Change(i: Input)
      modifies this
      ensures form == Apply(old(form), i)
      ensures loading == old(loading) && error == old(error) && success == old(success)
    {
      form := Apply(form, i);
    }

    /**
     * `handleSubmit`. A form failing a check shows that check's message and
     * sends nothing; otherwise the form is posted, and `response` is the
     * reply's `ok` flag (`None` when the request itself fails). Only an ok
     * reply shows the success message and calls `onSuccess` and `onClose`
     * (`closed`); any other reply shows no error at all.
     */
    method HandleSubmit(response: Option<bool>) returns (sent: Option<ProcurementApi.CreateBody>, closed: bool)
      modifies this
      ensures form == old(form) && !loading
      ensures sent.Some? <==> FormError(form).None?
      ensures sent.Some? ==> sent.value == Body(form)
      ensures error == (if FormError(form).Some? then FormError(form).value else "")
      ensures closed <==> sent.Some? && response == Some(true)
      ensures success == (if closed then CreatedMessage else "")
    {
      loading, error, success := true, "", "";
      closed := false;
      var problem := FormError(form);
      if problem.Some? {
        error := problem.value;
        loading := false;
        return None, false;
      }
      sent := Some(Body(form));
      if response == Some(true) {
        success := CreatedMessage;
        closed := true;
      }
      loading := false;
    }
  }

  // -------------------------------------------------------------------- lemmas

  /** The modal posts exactly the complete forms; the first failing check names its message. */
  lemma FormErrorIffIncomplete(f: Form)
    ensures FormError(f).None? <==> Complete(f)
    ensures f.productGroupId.None? ==> FormError(f) == Some(ProductRequired)
    ensures f.productGroupId.Some? && !PositiveNumber(f.requestedQty) ==> FormError(f) == Some(QuantityMessage)
    ensures FormError(f).Some? ==>
      FormError(f).value in {ProductRequired, QuantityMessage, PriceMessage, DateRequired}
  {
  }

  /** The fresh form is refused for its missing product, and changing one field leaves the rest. */
  lemma InitialRefused(i: Input)
    ensures FormError(InitialForm) == Some(ProductRequired)
    ensures !i.PurposeSelect? ==> Apply(InitialForm, i).purpose == "RETAIL"
    ensures !i.ProductSelect? ==> Apply(InitialForm, i).productGroupId == None
  {
  }

  /**
   * An empty price input passes, since `Number('')` is 0, and the route
   * then stores a price of 0 rather than leaving it unset.
   */
  lemma EmptyPriceStoredAsZero(f: Form, s: Session, parseDate: Val -> Option<Time>)
    requires f.estimatedPrice == ""
    ensures NonNegativeNumber(f.estimatedPrice)
    ensures ProcurementApi.Check(Body(f), s.userId, parseDate).Accepted? ==>
      ProcurementApi.Check(Body(f), s.userId, parseDate).input.estimatedPrice == Some(0.0)
  {
    TrimUnchanged("");
  }

  /**
   * A form the modal posts, with one of the two purposes of its select and
   * a date the route can parse, passes every check of the route: the two
   * sides read the quantity and the price the same way.
   */
  lemma PostedFormAccepted(f: Form, s: Session, parseDate: Val -> Option<Time>)
    requires FormError(f).None?
    requires f.purpose == "RETAIL" || f.purpose == "INHOUSE"
    requires parseDate(Str(f.expectedDeliveryDate)).Some?
    ensures ProcurementApi.BodyOk(Body(f), parseDate)
    ensures ProcurementApi.Check(Body(f), s.userId, parseDate).Accepted?
    ensures ProcurementApi.Check(Body(f), s.userId, parseDate).input.requestedQty == Some(ParseNumber(f.requestedQty).r)
  {
    ProcurementApi.CheckIffBodyOk(Body(f), s, parseDate);
  }

  /**
   * The modal is stricter than the route on the date: it refuses an empty
   * date, which the route accepts and stores as unset.
   */
  lemma EmptyDateOnlyClientSide(f: Form, s: Session, parseDate: Val -> Option<Time>)
    requires f.productGroupId.Some? && PositiveNumber(f.requestedQty) && NonNegativeNumber(f.estimatedPrice)
    requires f.purpose == "RETAIL" && f.expectedDeliveryDate == ""
    ensures FormError(f) == Some(DateRequired)
    ensures ProcurementApi.Check(Body(f), s.userId, parseDate).Accepted?
    ensures ProcurementApi.Check(Body(f), s.userId, parseDate).input.expectedDeliveryDate == None
  {
    ProcurementApi.CheckIffBodyOk(Body(f), s, parseDate);
  }
}
