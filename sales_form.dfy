/**
 * The "Create Sales Invoice" form of the sales page: its item list (add,
 * edit, remove), the payload it posts to `/api/sales-invoices`, and the reset
 * after a successful post.
 */
module SalesForm {
  import opened Base
  import opened Js
  import opened Models
  import Dates
  import SalesApi

  /** One item row; an edited field holds the text of its input. */
  datatype FormItem = FormItem(description: Val, quantity: Val, unitPrice: Val)

  datatype ItemKey = DescriptionKey | QuantityKey | UnitPriceKey

  datatype Form = Form(customerName: string, customerEmail: string, items: seq<FormItem>, taxRate: Val, notes: string)

  /** `{ description: '', quantity: 1, unitPrice: 0 }` */
  const BlankItem: FormItem := FormItem(Str(""), Num(1.0), Num(0.0))

  const InitialForm: Form := Form("", "", [BlankItem], Num(0.0), "")

  /** `addItem` */
  function AddItem(f: Form): Form {
    f.(items := f.items + [BlankItem])
  }

  /** `{ ...item, [key]: val }` */
  function SetKey(it: FormItem, key: ItemKey, v: Val): FormItem {
    match key
    case DescriptionKey => it.(description := v)
    case QuantityKey => it.(quantity := v)
    case UnitPriceKey => it.(unitPrice := v)
  }

  /** `updateItem(idx, key, val)`, called with the index of a rendered row. */
  function UpdateItem(f: Form, idx: nat, key: ItemKey, v: Val): Form
    requires idx < |f.items|
  {
    f.(items := f.items[idx := SetKey(f.items[idx], key, v)])
  }

  /** `items.filter((_, i) => i !== idx)`, walked from the left with `i` the index of `s[0]`. */
  function DropIndex(s: seq<FormItem>, idx: int, i: int): seq<FormItem>
    decreases |s|
  {
    if s == [] then [] else (if i == idx then [] else [s[0]]) + DropIndex(s[1..], idx, i + 1)
  }

  /** `removeItem(idx)` */
  function RemoveItem(f: Form, idx: int): Form {
    f.(items := DropIndex(f.items, idx, 0))
  }

  /** `JSON.stringify` of a number: NaN is written as null. */
  function JsonNumber(x: JsNumber): Val {
    match x
    case Real(r) => Num(r)
    case NaN => Null
  }

  /** The body of `handleSubmit`'s POST, as the route reads it back. */
  function Payload(f: Form): SalesApi.SaleBody {
    SalesApi.SaleBody(Str(f.customerName), Str(f.customerEmail),
      Some(seq(|f.items|, k requires 0 <= k < |f.items| =>
        SalesApi.ItemBody(f.items[k].description, JsonNumber(ToNumber(f.items[k].quantity)),
                          JsonNumber(ToNumber(f.items[k].unitPrice))))),
      JsonNumber(ToNumber(f.taxRate)), Str(f.notes))
  }

  class Page {
    var form: Form
    var saving: bool

    constructor ()
      ensures form == InitialForm && !saving
    {
      form, saving := InitialForm, false;
    }

    method Add()
      modifies this
      ensures form == AddItem(old(form)) && saving == old(saving)
    {
      form := AddItem(form);
    }

    method Update(idx: nat, key: ItemKey, v: Val)
      requires idx < |form.items|
      modifies this
      ensures form == UpdateItem(old(form), idx, key, v) && saving == old(saving)
    {
      form := UpdateItem(form, idx, key, v);
    }

    method Remove(idx: int)
      modifies this
      ensures form == RemoveItem(old(form), idx) && saving == old(saving)
    {
      form := RemoveItem(form, idx);
    }

    /**
     * `handleSubmit`: posts the payload; `ok` is whether the reply was ok
     * (false when the request itself fails). Only an ok reply resets the
     * form and refreshes the list; either way saving ends.
     */
    method HandleSubmit(ok: bool) returns (sent: SalesApi.SaleBody, refreshed: bool)
      modifies this
      ensures sent == Payload(old(form))
      ensures refreshed == ok
      ensures form == (if ok then InitialForm else old(form))
      ensures !saving
    {
      saving := true;
      sent := Payload(form);
      refreshed := false;
      if ok {
        form := InitialForm;
        refreshed := true;
      }
      saving := false;
    }
  }

  // -------------------------------------------------------------------- lemmas

  /** Adding appends one blank item and keeps the others; removing the new last item undoes it. */
  lemma AddThenRemove(f: Form)
    ensures |AddItem(f).items| == |f.items| + 1
    ensures AddItem(f).items[..|f.items|] == f.items && AddItem(f).items[|f.items|] == BlankItem
    ensures RemoveItem(AddItem(f), |f.items|) == f
  {
    RemoveSpec(f.items + [BlankItem], |f.items|);
    assert (f.items + [BlankItem])[..|f.items|] == f.items;
  }

  /** An update changes only that key of that item: the length and every other item stay. */
  lemma UpdateSpec(f: Form, idx: nat, key: ItemKey, v: Val)
    requires idx < |f.items|
    ensures var g := UpdateItem(f, idx, key, v);
      |g.items| == |f.items| && g.(items := f.items) == f
      && (forall k :: 0 <= k < |f.items| && k != idx ==> g.items[k] == f.items[k])
      && (key == DescriptionKey ==> g.items[idx] == f.items[idx].(description := v))
      && (key == QuantityKey ==> g.items[idx] == f.items[idx].(quantity := v))
      && (key == UnitPriceKey ==> g.items[idx] == f.items[idx].(unitPrice := v))
    ensures UpdateItem(UpdateItem(f, idx, key, v), idx, key, v) == UpdateItem(f, idx, key, v)
  {
  }

  /** Filtering from index `i` drops exactly the element at `idx - i`, or nothing when that is out of range. */
  lemma {:induction false} DropIndexSpec(s: seq<FormItem>, idx: int, i: int)
    ensures 0 <= idx - i < |s| ==> DropIndex(s, idx, i) == s[..idx - i] + s[idx - i + 1..]
    ensures !(0 <= idx - i < |s|) ==> DropIndex(s, idx, i) == s
    decreases |s|
  {
    if s != [] {
      DropIndexSpec(s[1..], idx, i + 1);
      var rest := DropIndex(s[1..], idx, i + 1);
      if i == idx {
        assert DropIndex(s, idx, i) == rest == s[1..];
        assert s[..0] + s[1..] == s[1..];
      } else if 0 <= idx - i < |s| {
        var j := idx - i;
        assert DropIndex(s, idx, i) == [s[0]] + rest;
        assert rest == s[1..][..j - 1] + s[1..][j..];
        assert s[1..][..j - 1] == s[1..j] && s[1..][j..] == s[j + 1..];
        assert [s[0]] + s[1..j] == s[..j];
      } else {
        assert DropIndex(s, idx, i) == [s[0]] + rest && rest == s[1..];
        assert [s[0]] + s[1..] == s;
      }
    }
  }

  /** Removing keeps every other item in order; out of range it changes nothing; it may leave none. */
  lemma RemoveSpec(items: seq<FormItem>, idx: int)
    ensures 0 <= idx < |items| ==> DropIndex(items, idx, 0) == items[..idx] + items[idx + 1..]
    ensures 0 <= idx < |items| ==> |DropIndex(items, idx, 0)| == |items| - 1
    ensures !(0 <= idx < |items|) ==> DropIndex(items, idx, 0) == items
    ensures |items| == 1 ==> DropIndex(items, 0, 0) == []
  {
    DropIndexSpec(items, idx, 0);
    DropIndexSpec(items, 0, 0);
  }

  /**
   * The payload keeps the items in order and converts their numbers with
   * `Number`: a quantity or price the route reads is always present (a
   * number, or null for NaN), so the route's subtotal is the sum of the
   * line totals it stores.
   */
  lemma PayloadTotals(f: Form)
    ensures var items := SalesApi.ItemsOf(Payload(f));
      |items| == |f.items|
      && (forall k :: 0 <= k < |items| ==>
            items[k].description == f.items[k].description
            && items[k].quantity == JsonNumber(ToNumber(f.items[k].quantity)))
      && SalesApi.Subtotal(items) == SalesApi.SumLines(SalesApi.Normalized(items))
  {
    var items := SalesApi.ItemsOf(Payload(f));
    PayloadItems(f);
    SalesApi.SubtotalIsSumOfLines(items);
  }

  /** The payload's items, one per form item, with the numbers converted. */
  lemma PayloadItems(f: Form)
    ensures var items := SalesApi.ItemsOf(Payload(f));
      |items| == |f.items|
      && forall k :: 0 <= k < |items| ==>
           items[k] == SalesApi.ItemBody(f.items[k].description, JsonNumber(ToNumber(f.items[k].quantity)),
                                         JsonNumber(ToNumber(f.items[k].unitPrice)))
           && !items[k].quantity.Undefined? && !items[k].unitPrice.Undefined?
  {
  }

  /**
   * The fresh form, posted as it is, is refused by the invoice schema: its
   * customer name and its one item's description are empty.
   */
  lemma InitialFormRefused(sales: seq<SalesInvoice>, s: Session, id: Id, day: Dates.CalendarDay, random: string,
                           now: Time)
    ensures SalesApi.CreateOutcome(sales, Some(s), Payload(InitialForm), id, day, random, now)
      == (sales, Err(500, SalesApi.ValidationFailed))
  {
    SalesApi.EmptyCustomerRefused(sales, s, Payload(InitialForm), id, day, random, now);
  }
}
