/**
 * The "Receive Stock" modal: the quantity still expected of an approved
 * request, the invoice files the user picks or drops (filtered by type and
 * size), and the two guards that run before the receipt is posted.
 */
module ReceiveModal {
  import opened Base
  import opened Js
  import opened Models

  /** A file picked or dropped by the user: its name, MIME type and size in bytes. */
  datatype Upload = Upload(name: string, mimeType: string, size: nat)

  const MaxFileSize: nat := 10 * 1024 * 1024
  const AllowedTypes: set<string> := {"application/pdf", "image/png", "image/jpeg"}
  const TypeMessage: string := "Invalid file type. Allowed: PDF, PNG, JPG"
  const SizeMessage: string := "File too large. Max 10MB per file"
  const NoInvoiceMessage: string := "Please upload at least one invoice file"
  const FailedMessage: string := "Failed to receive stock"

  /** Why the filter drops a file, the type test first; `None` for a file it keeps. */
  function Rejection(f: Upload): Option<string> {
    if f.mimeType !in AllowedTypes then Some(TypeMessage)
    else if f.size > MaxFileSize then Some(SizeMessage)
    else None
  }

  predicate Allowed(f: Upload) {
    f.mimeType in AllowedTypes && f.size <= MaxFileSize
  }

  /** The files the filter keeps, in their order. */
  function Kept(files: seq<Upload>): (r: seq<Upload>)
    ensures |r| <= |files|
    decreases |files|
  {
    if files == [] then []
    else
      var last := files[|files| - 1];
      Kept(files[..|files| - 1]) + (if Allowed(last) then [last] else [])
  }

  /** The message of the last file dropped by the filter: the one `fileError` ends up showing. */
  function LastRejection(files: seq<Upload>): Option<string>
    decreases |files|
  {
    if files == [] then None
    else if Rejection(files[|files| - 1]).Some? then Rejection(files[|files| - 1])
    else LastRejection(files[..|files| - 1])
  }

  function Names(files: seq<Upload>): (names: seq<string>)
    ensures |names| == |files|
  {
    seq(|files|, i requires 0 <= i < |files| => files[i].name)
  }

  /**
   * The loop of `handleFileChange` and `handleDrop`: each file failing a test
   * sets the file error and is skipped, each other one is pushed.
   */
  method Filter(files: seq<Upload>) returns (valid: seq<Upload>, fileError: Option<string>)
    ensures valid == Kept(files)
    ensures fileError == LastRejection(files)
  {
    valid, fileError := [], None;
    var i := 0;
    while i < |files|
      invariant 0 <= i <= |files|
      invariant valid == Kept(files[..i])
      invariant fileError == LastRejection(files[..i])
    {
      var f := files[i];
      assert files[..i + 1][..i] == files[..i];
      if f.mimeType !in AllowedTypes {
        fileError := Some(TypeMessage);
      } else if f.size > MaxFileSize {
        fileError := Some(SizeMessage);
      } else {
        valid := valid + [f];
      }
      i := i + 1;
    }
    assert files[..i] == files;
  }

  /** `(approvedQty || 0) - (receivedQty || 0)` */
  function Remaining(r: ProcurementRequest): real {
    r.approvedQty - r.receivedQty
  }

  function OverMessage(remaining: real): string {
    "Cannot receive more than remaining quantity (" + NumberToString(remaining) + ")"
  }

  /**
   * The two guards of `handleSubmit`, over-receipt first. A quantity that is
   * no number compares false, so it passes.
   */
  function GuardError(receivingNow: JsNumber, remaining: real, fileCount: nat): Option<string> {
    if receivingNow.Real? && receivingNow.r > remaining then Some(OverMessage(remaining))
    else if fileCount == 0 then Some(NoInvoiceMessage)
    else None
  }

  /** The longest run of digits `s` starts with. */
  function LeadingDigits(s: string): (d: string)
    ensures AllDigits(d) && |d| <= |s| && d == s[..|d|]
    decreases |s|
  {
    if s != [] && IsDigit(s[0]) then [s[0]] + LeadingDigits(s[1..]) else ""
  }

  /** `parseInt(s)`: leading whitespace, an optional sign, and the digits before anything else; NaN without digits. */
  function ParseInt(s: string): JsNumber {
    var t := TrimStart(s);
    var neg := |t| > 0 && t[0] == '-';
    var body := if |t| > 0 && (t[0] == '-' || t[0] == '+') then t[1..] else t;
    var d := LeadingDigits(body);
    if d == "" then NaN
    else Real(if neg then -(DigitsValue(d) as real) else DigitsValue(d) as real)
  }

  /** `String(n)` of the quantity as the form data carries it. */
  function QuantityText(x: JsNumber): string {
    if x.NaN? then "NaN" else NumberToString(x.r)
  }

  /** The multipart body of the receipt: each field as text, then every selected file under `invoices`. */
  datatype Receipt = Receipt(receivingNow: string, skuSuffix: string, expiryDate: string, stockedDate: string,
                             costPrice: string, invoices: seq<Upload>)

  /** The reply to the POST: ok, an error reply with its `message`, or a request that failed outright. */
  datatype Reply = Received | ErrorReply(message: string) | NetworkFailure(reason: string)

  function ReplyError(r: Reply): string {
    match r
    case Received => ""
    case ErrorReply(m) => if m != "" then m else FailedMessage
    case NetworkFailure(m) => m
  }

  /** The text inputs of the form. */
  datatype TextField = SkuSuffix | ExpiryDate | StockedDate | CostPrice

  class Modal {
    const remainingQty: real
    var receivingNow: JsNumber
    var skuSuffix: string
    var expiryDate: string
    var stockedDate: string
    var costPrice: string
    var invoiceFiles: seq<string>
    var selectedFiles: seq<Upload>
    var loading: bool
    var error: string
    var fileError: string

    /** Every selected file passed the filter, and `invoiceFiles` names them in order. */
    ghost predicate Valid()
      reads this
    {
      invoiceFiles == Names(selectedFiles) && forall i :: 0 <= i < |selectedFiles| ==> Allowed(selectedFiles[i])
    }

    /**
     * Opens the modal for `request`: the quantity starts at what remains to be
     * received, the stocked date at today's date (`iso(now)` cut to its day).
     */
    constructor (request: ProcurementRequest, iso: Time -> string, now: Time)
      ensures Valid()
      ensures remainingQty == Remaining(request) && receivingNow == Real(remainingQty)
      ensures stockedDate == Prefix(iso(now), 10)
      ensures skuSuffix == "" && expiryDate == "" && costPrice == "" && selectedFiles == []
      ensures !loading && error == "" && fileError == ""
    {
      remainingQty := Remaining(request);
      receivingNow := Real(Remaining(request));
      skuSuffix, expiryDate, costPrice := "", "", "";
      stockedDate := Prefix(iso(now), 10);
      invoiceFiles, selectedFiles := [], [];
      loading, error, fileError := false, "", "";
    }

    /** The quantity input's `onChange`: `parseInt` of its text. */
    method ChangeQuantity(text: string)
      modifies this
      ensures receivingNow == ParseInt(text)
      ensures skuSuffix == old(skuSuffix) && expiryDate == old(expiryDate) && stockedDate == old(stockedDate)
      ensures costPrice == old(costPrice) && invoiceFiles == old(invoiceFiles) && selectedFiles == old(selectedFiles)
      ensures loading == old(loading) && error == old(error) && fileError == old(fileError)
    {
      receivingNow := ParseInt(text);
    }

    method ChangeText(field: TextField, text: string)
      modifies this
      ensures skuSuffix == (if field == SkuSuffix then text else old(skuSuffix))
      ensures expiryDate == (if field == ExpiryDate then text else old(expiryDate))
      ensures stockedDate == (if field == StockedDate then text else old(stockedDate))
      ensures costPrice == (if field == CostPrice then text else old(costPrice))
      ensures receivingNow == old(receivingNow) && invoiceFiles == old(invoiceFiles)
      ensures selectedFiles == old(selectedFiles)
      ensures loading == old(loading) && error == old(error) && fileError == old(fileError)
    {
      match field
      case SkuSuffix => skuSuffix := text;
      case ExpiryDate => expiryDate := text;
      case StockedDate => stockedDate := text;
      case CostPrice => costPrice := text;
    }

    /** `handleFileChange`: the files kept replace the selection; a dropped file leaves its message. */
    method HandleFileChange(files: seq<Upload>)
      requires Valid()
      modifies this
      ensures Valid()
      ensures selectedFiles == Kept(files) && invoiceFiles == Names(Kept(files))
      ensures fileError == (if LastRejection(files).Some? then LastRejection(files).value else old(fileError))
      ensures receivingNow == old(receivingNow) && skuSuffix == old(skuSuffix) && expiryDate == old(expiryDate)
      ensures stockedDate == old(stockedDate) && costPrice == old(costPrice)
      ensures loading == old(loading) && error == old(error)
    {
      var valid, message := Filter(files);
      KeptAllowed(files);
      if message.Some? {
        fileError := message.value;
      }
      selectedFiles := valid;
      invoiceFiles := Names(valid);
    }

    /** `handleDrop`: the files kept are appended to the selection, their names to `invoiceFiles`. */
    method HandleDrop(files: seq<Upload>)
      requires Valid()
      modifies this
      ensures Valid()
      ensures selectedFiles == old(selectedFiles) + Kept(files)
      ensures invoiceFiles == old(invoiceFiles) + Names(Kept(files))
      ensures fileError == (if LastRejection(files).Some? then LastRejection(files).value else old(fileError))
      ensures receivingNow == old(receivingNow) && skuSuffix == old(skuSuffix) && expiryDate == old(expiryDate)
      ensures stockedDate == old(stockedDate) && costPrice == old(costPrice)
      ensures loading == old(loading) && error == old(error)
    {
      var valid, message := Filter(files);
      KeptAllowed(files);
      if message.Some? {
        fileError := message.value;
      }
      NamesAppend(selectedFiles, valid);
      selectedFiles := selectedFiles + valid;
      invoiceFiles := invoiceFiles + Names(valid);
    }

    /**
     * `handleSubmit`. A refused guard shows its message and posts nothing;
     * otherwise the receipt is posted, and `reply` decides: `onSuccess` is
     * called (`succeeded`) on an ok reply, any other reply shows its error.
     */
    method HandleSubmit(reply: Reply) returns (sent: Option<Receipt>, succeeded: bool)
      requires Valid()
      modifies this
      ensures Valid()
      ensures var guard := GuardError(receivingNow, remainingQty, |selectedFiles|);
        (sent.Some? <==> guard.None?)
        && (guard.Some? ==> error == guard.value && !succeeded)
      ensures sent.Some? ==> sent.value == Receipt(QuantityText(receivingNow), skuSuffix, expiryDate, stockedDate,
                                                   costPrice, selectedFiles)
      ensures sent.Some? ==> (succeeded <==> reply == Received) && error == ReplyError(reply)
      ensures !loading && fileError == ""
      ensures receivingNow == old(receivingNow) && skuSuffix == old(skuSuffix) && expiryDate == old(expiryDate)
      ensures stockedDate == old(stockedDate) && costPrice == old(costPrice)
      ensures selectedFiles == old(selectedFiles) && invoiceFiles == old(invoiceFiles)
    {
      loading, error, fileError := true, "", "";
      succeeded := false;
      if receivingNow.Real? && receivingNow.r > remainingQty {
        error := OverMessage(remainingQty);
        loading := false;
        return None, false;
      }
      if |selectedFiles| == 0 {
        error := NoInvoiceMessage;
        loading := false;
        return None, false;
      }
      sent := Some(Receipt(QuantityText(receivingNow), skuSuffix, expiryDate, stockedDate, costPrice, selectedFiles));
      succeeded := reply.Received?;
      error := ReplyError(reply);
      loading := false;
    }
  }

  // -------------------------------------------------------------------- lemmas

  /** A file is kept exactly when it is one of the allowed types and at most 10 MiB. */
  lemma RejectionIffNotAllowed(f: Upload)
    ensures Rejection(f).None? <==> Allowed(f)
    ensures f.mimeType !in AllowedTypes ==> Rejection(f) == Some(TypeMessage)
  {
  }

  /** Every kept file is allowed, in its original relative order, and every allowed file is kept. */
  lemma {:induction false} KeptAllowed(files: seq<Upload>)
    ensures forall i :: 0 <= i < |Kept(files)| ==> Allowed(Kept(files)[i])
    ensures forall f :: f in Kept(files) <==> f in files && Allowed(f)
    decreases |files|
  {
    if files != [] {
      var front := files[..|files| - 1];
      KeptAllowed(front);
      assert files == front + [files[|files| - 1]];
    }
  }

  /** The filter keeps everything when every file is allowed, and nothing is then reported. */
  lemma {:induction false} AllAllowed(files: seq<Upload>)
    requires forall i :: 0 <= i < |files| ==> Allowed(files[i])
    ensures Kept(files) == files && LastRejection(files).None?
    decreases |files|
  {
    if files != [] {
      var front := files[..|files| - 1];
      AllAllowed(front);
      assert files == front + [files[|files| - 1]];
    }
  }

  /** A rejection is reported exactly when some file is dropped. */
  lemma {:induction false} RejectionReported(files: seq<Upload>)
    ensures LastRejection(files).None? <==> forall i :: 0 <= i < |files| ==> Allowed(files[i])
    ensures LastRejection(files).None? <==> |Kept(files)| == |files|
    decreases |files|
  {
    if files != [] {
      var front := files[..|files| - 1];
      RejectionReported(front);
      assert forall i :: 0 <= i < |front| ==> front[i] == files[i];
    }
  }

  /** Filtering two batches one after the other keeps what filtering them together keeps. */
  lemma {:induction false} KeptAppend(a: seq<Upload>, b: seq<Upload>)
    ensures Kept(a + b) == Kept(a) + Kept(b)
    decreases |b|
  {
    if b != [] {
      var front := b[..|b| - 1];
      KeptAppend(a, front);
      var ab := a + b;
      assert ab[..|ab| - 1] == a + front;
      assert ab[|ab| - 1] == b[|b| - 1];
      var tail := if Allowed(b[|b| - 1]) then [b[|b| - 1]] else [];
      assert Kept(ab) == Kept(a + front) + tail;
      assert Kept(b) == Kept(front) + tail;
      assert Kept(a) + Kept(b) == (Kept(a) + Kept(front)) + tail;
    } else {
      assert a + b == a;
    }
  }

  lemma NamesAppend(a: seq<Upload>, b: seq<Upload>)
    ensures Names(a + b) == Names(a) + Names(b)
  {
  }

  /**
   * Two drops select what one drop of both batches would; choosing files
   * afterwards forgets both.
   */
  lemma TwoDrops(a: seq<Upload>, b: seq<Upload>)
    ensures Kept(a) + Kept(b) == Kept(a + b)
    ensures Names(Kept(a)) + Names(Kept(b)) == Names(Kept(a + b))
  {
    KeptAppend(a, b);
    NamesAppend(Kept(a), Kept(b));
  }

  /** The guards: over-receipt is checked first, and only from above. */
  lemma GuardOrder(x: real, remaining: real, fileCount: nat)
    ensures x > remaining ==> GuardError(Real(x), remaining, fileCount) == Some(OverMessage(remaining))
    ensures x <= remaining && fileCount == 0 ==> GuardError(Real(x), remaining, fileCount) == Some(NoInvoiceMessage)
    ensures GuardError(Real(x), remaining, fileCount).None? <==> x <= remaining && fileCount > 0
  {
  }

  /** The prefilled quantity passes the over-receipt guard; so does any zero or negative one. */
  lemma PrefilledPasses(r: ProcurementRequest, x: real, fileCount: nat)
    requires fileCount > 0 && x <= 0.0 && Remaining(r) >= 0.0
    ensures GuardError(Real(Remaining(r)), Remaining(r), fileCount).None?
    ensures GuardError(Real(x), Remaining(r), fileCount).None?
  {
  }

  /**
   * An emptied quantity box parses to NaN, which passes the over-receipt
   * guard and is posted as the text 'NaN'.
   */
  lemma EmptyQuantityPasses(remaining: real, fileCount: nat)
    requires fileCount > 0
    ensures ParseInt("") == NaN
    ensures GuardError(ParseInt(""), remaining, fileCount).None? && QuantityText(ParseInt("")) == "NaN"
  {
  }

  /** The digits of a number read back as that number. */
  lemma {:induction false} LeadingDigitsAll(s: string)
    requires AllDigits(s)
    ensures LeadingDigits(s) == s
    decreases |s|
  {
    if s != [] {
      LeadingDigitsAll(s[1..]);
    }
  }

  /** Digits end at the first non-digit. */
  lemma {:induction false} LeadingDigitsStop(d: string, rest: string)
    requires AllDigits(d) && rest != [] && !IsDigit(rest[0])
    ensures LeadingDigits(d + rest) == d
    decreases |d|
  {
    if d != [] {
      LeadingDigitsStop(d[1..], rest);
      assert (d + rest)[1..] == d[1..] + rest;
    }
  }

  /** `parseInt(String(n)) == n` for a whole number written by the input. */
  lemma ParseIntWhole(n: nat)
    ensures ParseInt(NatToString(n)) == Real(n as real)
  {
    var s := NatToString(n);
    TrimStartNoSpace(s);
    LeadingDigitsAll(s);
    NatToStringRoundTrip(n);
  }

  /** A decimal quantity is cut to its whole part: `parseInt('4.5')` is 4. */
  lemma ParseIntTruncates(n: nat, fraction: string)
    ensures ParseInt(NatToString(n) + "." + fraction) == Real(n as real)
  {
    var d := NatToString(n);
    var s := d + "." + fraction;
    assert s == d + ("." + fraction);
    TrimStartNoSpace(s);
    LeadingDigitsStop(d, "." + fraction);
    NatToStringRoundTrip(n);
  }
}
