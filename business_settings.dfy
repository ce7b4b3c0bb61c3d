/**
 * `/api/settings/business`: the business profile and working hours of the
 * settings singleton. GET returns the two sections (creating the defaults
 * on first read); an ADMIN POST validates both against their schemas and
 * replaces them.
 */
module BusinessSettings {
  import opened Base
  import opened Js
  import opened Models
  import opened Casting
  import opened Db
  import SettingsApi

  /** A body section: the JSON object it holds, or anything that is not an object (a missing key included). */
  datatype Section = NotObject | Obj(fields: map<string, Val>)

  /** What a schema check can object to. */
  datatype Kind = InvalidType | TooSmall | TooBig | InvalidFormat | InvalidEnum | InvalidUnion

  /** One validation issue: the field it is about ("" for the section itself) and its kind. */
  datatype Issue = Issue(path: string, kind: Kind)

  /** A checked field: the issues it raised, in check order, and the value it yields when there are none. */
  datatype Checked<T> = Checked(issues: seq<Issue>, value: T)

  /** A schema's verdict on a section. */
  datatype Parse<T> = Parsed(value: T) | Failed(issues: seq<Issue>)

  const ShopNameRequired: string := "Shop name is required"
  const DateFormats: seq<string> := ["DD/MM/YYYY", "MM/DD/YYYY", "YYYY-MM-DD"]

  function Read(s: Section, key: string): Val
    requires s.Obj?
  {
    Field(s.fields, key)
  }

  // ------------------------------------------------------------- field checks

  /** `z.string().min(1)` */
  function NonEmptyString(key: string, v: Val): (r: Checked<string>)
    ensures r.issues == [] <==> v.Str? && v.s != ""
    ensures r.issues == [] ==> r.value == v.s
  {
    if !v.Str? then Checked([Issue(key, InvalidType)], "")
    else if v.s == "" then Checked([Issue(key, TooSmall)], "")
    else Checked([], v.s)
  }

  /** `z.string().optional()`: an absent field is stored with its schema default ''. */
  function OptionalString(key: string, v: Val): Checked<string> {
    if v.Undefined? then Checked([], "")
    else if !v.Str? then Checked([Issue(key, InvalidType)], "")
    else Checked([], v.s)
  }

  /** `z.string().email().optional()`; `isEmail` is the library's address test. */
  function OptionalEmail(key: string, v: Val, isEmail: string -> bool): Checked<string> {
    if v.Undefined? then Checked([], "")
    else if !v.Str? then Checked([Issue(key, InvalidType)], "")
    else if !isEmail(v.s) then Checked([Issue(key, InvalidFormat)], v.s)
    else Checked([], v.s)
  }

  /**
   * `z.string().url().optional().or(z.literal(''))`. When neither side
   * accepts, the union reports the first side's issue if that side got past
   * its type check (a string that is not a URL), and a union issue otherwise.
   */
  function LogoUrl(key: string, v: Val, isUrl: string -> bool): (r: Checked<string>)
    ensures r.issues == [] <==> v.Undefined? || (v.Str? && (v.s == "" || isUrl(v.s)))
    ensures r.issues != [] && v.Str? ==> r.issues == [Issue(key, InvalidFormat)]
    ensures r.issues != [] && !v.Str? ==> r.issues == [Issue(key, InvalidUnion)]
  {
    if v.Undefined? then Checked([], "")
    else if v.Str? && (isUrl(v.s) || v.s == "") then Checked([], v.s)
    else if v.Str? then Checked([Issue(key, InvalidFormat)], v.s)
    else Checked([Issue(key, InvalidUnion)], "")
  }

  /** `z.enum(options)` */
  function OneOf(key: string, v: Val, options: seq<string>): (r: Checked<string>)
    ensures r.issues == [] <==> v.Str? && v.s in options
    ensures r.issues == [] ==> r.value == v.s
    ensures r.issues != [] ==> r.issues == [Issue(key, InvalidEnum)]
  {
    if v.Str? && v.s in options then Checked([], v.s) else Checked([Issue(key, InvalidEnum)], "")
  }

  /** `z.coerce.number().min(0).max(100)`: `Number(v)` first, NaN is a type issue, then both bounds. */
  function Percent(key: string, v: Val): (r: Checked<real>)
    ensures r.issues == [] <==> ToNumber(v).Real? && 0.0 <= ToNumber(v).r <= 100.0
    ensures ToNumber(v).Real? ==> r.value == ToNumber(v).r
  {
    match ToNumber(v)
    case NaN => Checked([Issue(key, InvalidType)], 0.0)
    case Real(r) =>
      Checked((if r < 0.0 then [Issue(key, TooSmall)] else []) + (if r > 100.0 then [Issue(key, TooBig)] else []), r)
  }

  /** `/^\d{2}:\d{2}$/`: ASCII digits, no range check. */
  predicate ClockText(s: string) {
    |s| == 5 && IsDigit(s[0]) && IsDigit(s[1]) && s[2] == ':' && IsDigit(s[3]) && IsDigit(s[4])
  }

  /** `z.string().regex(/^\d{2}:\d{2}$/)` */
  function Clock(key: string, v: Val): (r: Checked<string>)
    ensures r.issues == [] <==> v.Str? && ClockText(v.s)
    ensures r.issues == [] ==> r.value == v.s
  {
    if !v.Str? then Checked([Issue(key, InvalidType)], "")
    else if !ClockText(v.s) then Checked([Issue(key, InvalidFormat)], v.s)
    else Checked([], v.s)
  }

  function ToBusinessType(s: string): BusinessType {
    if s == "Barbershop" then Barbershop else if s == "Spa" then Spa else Salon
  }

  function ToTaxType(s: string): TaxType {
    if s == "Exclusive" then Exclusive else Inclusive
  }

  // ------------------------------------------------------------------ schemas

  /** `BusinessSchema.safeParse`: every field checked in schema order; unknown keys are dropped. */
  function ParseBusiness(sec: Section, isEmail: string -> bool, isUrl: string -> bool): (r: Parse<Business>)
    ensures sec.NotObject? ==> r == Failed([Issue("", InvalidType)])
    ensures r.Failed? ==> r.issues != []
    ensures r.Parsed? ==>
      r.value.shopName != "" && r.value.invoicePrefix != "" && r.value.currency != ""
      && r.value.timezone != "" && r.value.dateFormat in DateFormats && 0.0 <= r.value.defaultTaxPercent <= 100.0
  {
    if sec.NotObject? then Failed([Issue("", InvalidType)])
    else
      var shopName := NonEmptyString("shopName", Read(sec, "shopName"));
      var contactNumber := OptionalString("contactNumber", Read(sec, "contactNumber"));
      var email := OptionalEmail("email", Read(sec, "email"), isEmail);
      var address := OptionalString("address", Read(sec, "address"));
      var businessType := OneOf("businessType", Read(sec, "businessType"), ["Salon", "Barbershop", "Spa"]);
      var gstNumber := OptionalString("gstNumber", Read(sec, "gstNumber"));
      var tax := Percent("defaultTaxPercent", Read(sec, "defaultTaxPercent"));
      var taxType := OneOf("taxType", Read(sec, "taxType"), ["Inclusive", "Exclusive"]);
      var invoicePrefix := NonEmptyString("invoicePrefix", Read(sec, "invoicePrefix"));
      var footer := OptionalString("invoiceFooterMessage", Read(sec, "invoiceFooterMessage"));
      var logoUrl := LogoUrl("logoUrl", Read(sec, "logoUrl"), isUrl);
      var currency := NonEmptyString("currency", Read(sec, "currency"));
      var timezone := NonEmptyString("timezone", Read(sec, "timezone"));
      var dateFormat := OneOf("dateFormat", Read(sec, "dateFormat"), DateFormats);
      var issues := shopName.issues + contactNumber.issues + email.issues + address.issues + businessType.issues
        + gstNumber.issues + tax.issues + taxType.issues + invoicePrefix.issues + footer.issues + logoUrl.issues
        + currency.issues + timezone.issues + dateFormat.issues;
      if issues != [] then Failed(issues)
      else Parsed(Business(shopName.value, contactNumber.value, email.value, address.value,
        ToBusinessType(businessType.value), gstNumber.value, tax.value, ToTaxType(taxType.value),
        invoicePrefix.value, footer.value, logoUrl.value, currency.value, timezone.value, dateFormat.value))
  }

  /** `WorkingHoursSchema.safeParse` */
  function ParseHours(sec: Section): (r: Parse<WorkingHours>)
    ensures sec.NotObject? ==> r == Failed([Issue("", InvalidType)])
    ensures r.Failed? ==> r.issues != []
    ensures r.Parsed? ==> ClockText(r.value.openingTime) && ClockText(r.value.closingTime) && r.value.weeklyOffDay != ""
  {
    if sec.NotObject? then Failed([Issue("", InvalidType)])
    else
      var opening := Clock("openingTime", Read(sec, "openingTime"));
      var closing := Clock("closingTime", Read(sec, "closingTime"));
      var offDay := NonEmptyString("weeklyOffDay", Read(sec, "weeklyOffDay"));
      var issues := opening.issues + closing.issues + offDay.issues;
      if issues != [] then Failed(issues)
      else Parsed(WorkingHours(opening.value, closing.value, offDay.value))
  }

  /**
   * An issue's message: the schema's own text for an empty shop name, the
   * library's default text (`zodMessage`) for anything else.
   */
  function Message(i: Issue, zodMessage: Issue -> string): string {
    if i == Issue("shopName", TooSmall) then ShopNameRequired else zodMessage(i)
  }

  function Messages(issues: seq<Issue>, zodMessage: Issue -> string): (m: seq<string>)
    ensures |m| == |issues|
    ensures forall k :: 0 <= k < |issues| ==> m[k] == Message(issues[k], zodMessage)
  {
    if issues == [] then [] else [Message(issues[0], zodMessage)] + Messages(issues[1..], zodMessage)
  }

  /** The 400 body: `error.errors.map(e => e.message).join(', ')` */
  function ErrorText(issues: seq<Issue>, zodMessage: Issue -> string): string {
    Join(Messages(issues, zodMessage), ", ")
  }

  // -------------------------------------------------------------------- route

  datatype Profile = Profile(business: Business, workingHours: WorkingHours)

  /** The validators the library supplies, passed in. */
  datatype Library = Library(isEmail: string -> bool, isUrl: string -> bool, zodMessage: Issue -> string)

  function GetOutcome(stored: Option<Settings>, session: Option<Session>): (Option<Settings>, Http<Profile>) {
    if session.None? then (stored, Err(401, "Unauthorized"))
    else
      var s := SettingsApi.Current(stored);
      (Some(s), Ok(200, Profile(s.business, s.workingHours)))
  }

  /** POST with body sections `business` and `workingHours`. */
  function PostOutcome(stored: Option<Settings>, session: Option<Session>, business: Section, hours: Section,
                       lib: Library): (r: (Option<Settings>, Http<Profile>))
    ensures r.0 == stored || (r.0.Some? && r.0.value.inventory == SettingsApi.Current(stored).inventory)
  {
    if session.None? then (stored, Err(401, "Unauthorized"))
    else if session.value.role != "ADMIN" then (stored, Err(403, "Forbidden"))
    else Decide(stored, ParseBusiness(business, lib.isEmail, lib.isUrl), ParseHours(hours), lib.zodMessage)
  }

  /** What an ADMIN's POST does with the two parse results: the first failure is reported, else both are stored. */
  function Decide(stored: Option<Settings>, business: Parse<Business>, hours: Parse<WorkingHours>,
                  zodMessage: Issue -> string): (r: (Option<Settings>, Http<Profile>))
    ensures r.0 == stored || (r.0.Some? && r.0.value.inventory == SettingsApi.Current(stored).inventory)
  {
    match business
    case Failed(issues) => (stored, Err(400, ErrorText(issues, zodMessage)))
    case Parsed(b) =>
      match hours
      case Failed(issues) => (stored, Err(400, ErrorText(issues, zodMessage)))
      case Parsed(h) =>
        var updated := SettingsApi.Current(stored).(business := b, workingHours := h);
        (Some(updated), Ok(200, Profile(updated.business, updated.workingHours)))
  }

  method Get(db: Store, session: Option<Session>) returns (reply: Http<Profile>)
    requires db.Valid()
    modifies db
    ensures db.Valid()
    ensures (db.settings, reply) == GetOutcome(old(db.settings), session)
    ensures db.groups == old(db.groups) && db.units == old(db.units) && db.requests == old(db.requests)
    ensures db.supplierInvoices == old(db.supplierInvoices) && db.sales == old(db.sales)
    ensures db.users == old(db.users) && db.nextId == old(db.nextId)
  {
    if session.None? {
      return Err(401, "Unauthorized");
    }
    if db.settings.None? {
      db.settings := Some(DefaultSettings());
    }
    var s := db.settings.value;
    reply := Ok(200, Profile(s.business, s.workingHours));
  }

  method Post(db: Store, session: Option<Session>, business: Section, hours: Section, lib: Library)
    returns (reply: Http<Profile>)
    requires db.Valid()
    modifies db
    ensures db.Valid()
    ensures (db.settings, reply) == PostOutcome(old(db.settings), session, business, hours, lib)
    ensures db.groups == old(db.groups) && db.units == old(db.units) && db.requests == old(db.requests)
    ensures db.supplierInvoices == old(db.supplierInvoices) && db.sales == old(db.sales)
    ensures db.users == old(db.users) && db.nextId == old(db.nextId)
  {
    var outcome := PostOutcome(db.settings, session, business, hours, lib);
    db.SetSettings(outcome.0);
    reply := outcome.1;
  }

  // -------------------------------------------------------------------- lemmas

  /** The business rules, field by field, independently of the order the schema checks them in. */
  predicate BusinessRules(o: map<string, Val>, isEmail: string -> bool, isUrl: string -> bool) {
    Field(o, "shopName").Str? && Field(o, "shopName").s != "" && OtherRules(o, isEmail, isUrl)
  }

  /** The business rules for every field except the shop name. */
  predicate OtherRules(o: map<string, Val>, isEmail: string -> bool, isUrl: string -> bool) {
    (Field(o, "contactNumber").Undefined? || Field(o, "contactNumber").Str?)
    && (Field(o, "email").Undefined? || (Field(o, "email").Str? && isEmail(Field(o, "email").s)))
    && (Field(o, "address").Undefined? || Field(o, "address").Str?)
    && Field(o, "businessType") in [Str("Salon"), Str("Barbershop"), Str("Spa")]
    && (Field(o, "gstNumber").Undefined? || Field(o, "gstNumber").Str?)
    && ToNumber(Field(o, "defaultTaxPercent")).Real?
    && 0.0 <= ToNumber(Field(o, "defaultTaxPercent")).r <= 100.0
    && Field(o, "taxType") in [Str("Inclusive"), Str("Exclusive")]
    && (Field(o, "invoicePrefix").Str? && Field(o, "invoicePrefix").s != "")
    && (Field(o, "invoiceFooterMessage").Undefined? || Field(o, "invoiceFooterMessage").Str?)
    && (Field(o, "logoUrl").Undefined? || Field(o, "logoUrl") == Str("") || (Field(o, "logoUrl").Str? && isUrl(Field(o, "logoUrl").s)))
    && (Field(o, "currency").Str? && Field(o, "currency").s != "")
    && (Field(o, "timezone").Str? && Field(o, "timezone").s != "")
    && Field(o, "dateFormat") in [Str("DD/MM/YYYY"), Str("MM/DD/YYYY"), Str("YYYY-MM-DD")]
  }

  /**
   * The business schema accepts exactly the sections that keep every rule,
   * and then yields the given values, absent optional texts as ''.
   */
  lemma BusinessIffRules(sec: Section, isEmail: string -> bool, isUrl: string -> bool)
    ensures ParseBusiness(sec, isEmail, isUrl).Parsed? <==> sec.Obj? && BusinessRules(sec.fields, isEmail, isUrl)
    ensures ParseBusiness(sec, isEmail, isUrl).Parsed? ==>
      var b := ParseBusiness(sec, isEmail, isUrl).value;
      b.shopName != "" && b.invoicePrefix != "" && b.currency != "" && b.timezone != ""
      && 0.0 <= b.defaultTaxPercent <= 100.0 && b.dateFormat in DateFormats
      && Read(sec, "shopName") == Str(b.shopName) && Read(sec, "currency") == Str(b.currency)
      && Read(sec, "businessType") == Str(BusinessTypeName(b.businessType))
      && (Read(sec, "contactNumber").Undefined? ==> b.contactNumber == "")
    ensures ParseBusiness(sec, isEmail, isUrl).Parsed? ==>
      ParseBusiness(sec, isEmail, isUrl).value == Business(
        TextOf(Read(sec, "shopName")), TextOf(Read(sec, "contactNumber")), TextOf(Read(sec, "email")),
        TextOf(Read(sec, "address")), ToBusinessType(TextOf(Read(sec, "businessType"))),
        TextOf(Read(sec, "gstNumber")), ToNumber(Read(sec, "defaultTaxPercent")).r,
        ToTaxType(TextOf(Read(sec, "taxType"))), TextOf(Read(sec, "invoicePrefix")),
        TextOf(Read(sec, "invoiceFooterMessage")), TextOf(Read(sec, "logoUrl")), TextOf(Read(sec, "currency")),
        TextOf(Read(sec, "timezone")), TextOf(Read(sec, "dateFormat")))
  {
    if sec.Obj? {
      BusinessIssues(sec, isEmail, isUrl);
    }
  }

  /** The text of a string field, '' for an absent one. */
  function TextOf(v: Val): string {
    if v.Str? then v.s else ""
  }

  /** Every field check of the business schema passes. */
  predicate NoIssues(sec: Section, isEmail: string -> bool, isUrl: string -> bool)
    requires sec.Obj?
  {
    NonEmptyString("shopName", Read(sec, "shopName")).issues == []
    && OptionalString("contactNumber", Read(sec, "contactNumber")).issues == []
    && OptionalEmail("email", Read(sec, "email"), isEmail).issues == []
    && OptionalString("address", Read(sec, "address")).issues == []
    && OneOf("businessType", Read(sec, "businessType"), ["Salon", "Barbershop", "Spa"]).issues == []
    && OptionalString("gstNumber", Read(sec, "gstNumber")).issues == []
    && Percent("defaultTaxPercent", Read(sec, "defaultTaxPercent")).issues == []
    && OneOf("taxType", Read(sec, "taxType"), ["Inclusive", "Exclusive"]).issues == []
    && NonEmptyString("invoicePrefix", Read(sec, "invoicePrefix")).issues == []
    && OptionalString("invoiceFooterMessage", Read(sec, "invoiceFooterMessage")).issues == []
    && LogoUrl("logoUrl", Read(sec, "logoUrl"), isUrl).issues == []
    && NonEmptyString("currency", Read(sec, "currency")).issues == []
    && NonEmptyString("timezone", Read(sec, "timezone")).issues == []
    && OneOf("dateFormat", Read(sec, "dateFormat"), DateFormats).issues == []
  }

  /** The business schema reports no issue exactly when every field keeps its rule. */
  lemma BusinessIssues(sec: Section, isEmail: string -> bool, isUrl: string -> bool)
    requires sec.Obj?
    ensures ParseBusiness(sec, isEmail, isUrl).Parsed? <==> BusinessRules(sec.fields, isEmail, isUrl)
  {
    ParsedIffNoIssues(sec, isEmail, isUrl);
    NoIssuesIffRules(sec, isEmail, isUrl);
  }

  lemma ParsedIffNoIssues(sec: Section, isEmail: string -> bool, isUrl: string -> bool)
    requires sec.Obj?
    ensures ParseBusiness(sec, isEmail, isUrl).Parsed? <==> NoIssues(sec, isEmail, isUrl)
  {
    var i1 := NonEmptyString("shopName", Read(sec, "shopName")).issues;
    var i2 := OptionalString("contactNumber", Read(sec, "contactNumber")).issues;
    var i3 := OptionalEmail("email", Read(sec, "email"), isEmail).issues;
    var i4 := OptionalString("address", Read(sec, "address")).issues;
    var i5 := OneOf("businessType", Read(sec, "businessType"), ["Salon", "Barbershop", "Spa"]).issues;
    var i6 := OptionalString("gstNumber", Read(sec, "gstNumber")).issues;
    var i7 := Percent("defaultTaxPercent", Read(sec, "defaultTaxPercent")).issues;
    var i8 := OneOf("taxType", Read(sec, "taxType"), ["Inclusive", "Exclusive"]).issues;
    var i9 := NonEmptyString("invoicePrefix", Read(sec, "invoicePrefix")).issues;
    var i10 := OptionalString("invoiceFooterMessage", Read(sec, "invoiceFooterMessage")).issues;
    var i11 := LogoUrl("logoUrl", Read(sec, "logoUrl"), isUrl).issues;
    var i12 := NonEmptyString("currency", Read(sec, "currency")).issues;
    var i13 := NonEmptyString("timezone", Read(sec, "timezone")).issues;
    var i14 := OneOf("dateFormat", Read(sec, "dateFormat"), DateFormats).issues;
    var all := i1 + i2 + i3 + i4 + i5 + i6 + i7 + i8 + i9 + i10 + i11 + i12 + i13 + i14;
    assert ParseBusiness(sec, isEmail, isUrl).Parsed? <==> all == [];
    assert |all| == |i1| + |i2| + |i3| + |i4| + |i5| + |i6| + |i7| + |i8| + |i9| + |i10| + |i11| + |i12| + |i13| + |i14|;
  }

  lemma NoIssuesIffRules(sec: Section, isEmail: string -> bool, isUrl: string -> bool)
    requires sec.Obj?
    ensures NoIssues(sec, isEmail, isUrl) <==> BusinessRules(sec.fields, isEmail, isUrl)
  {
    assert OneOf("businessType", Read(sec, "businessType"), ["Salon", "Barbershop", "Spa"]).issues == []
      <==> Read(sec, "businessType") in [Str("Salon"), Str("Barbershop"), Str("Spa")];
    assert OneOf("taxType", Read(sec, "taxType"), ["Inclusive", "Exclusive"]).issues == []
      <==> Read(sec, "taxType") in [Str("Inclusive"), Str("Exclusive")];
    assert OneOf("dateFormat", Read(sec, "dateFormat"), DateFormats).issues == []
      <==> Read(sec, "dateFormat") in [Str("DD/MM/YYYY"), Str("MM/DD/YYYY"), Str("YYYY-MM-DD")];
  }

  function BusinessTypeName(t: BusinessType): string {
    match t
    case Salon => "Salon"
    case Barbershop => "Barbershop"
    case Spa => "Spa"
  }

  /**
   * The hours schema accepts exactly two clock texts and a non-empty off
   * day, and keeps them as given.
   */
  lemma HoursIffRules(sec: Section)
    ensures ParseHours(sec).Parsed? <==>
      (sec.Obj? && Read(sec, "openingTime").Str? && ClockText(Read(sec, "openingTime").s)
       && Read(sec, "closingTime").Str? && ClockText(Read(sec, "closingTime").s)
       && Read(sec, "weeklyOffDay").Str? && Read(sec, "weeklyOffDay").s != "")
    ensures ParseHours(sec).Parsed? ==>
      ParseHours(sec).value == WorkingHours(Read(sec, "openingTime").s, Read(sec, "closingTime").s,
                                            Read(sec, "weeklyOffDay").s)
  {
  }

  /** The pattern checks the shape only: "99:99" opens and "25:61" closes, but "9:00" is refused. */
  lemma OutOfRangeTimesPass()
    ensures ParseHours(Obj(map["openingTime" := Str("99:99"), "closingTime" := Str("25:61"),
                               "weeklyOffDay" := Str("Sunday")])).Parsed?
    ensures ParseHours(Obj(map["openingTime" := Str("9:00"), "closingTime" := Str("21:00"),
                               "weeklyOffDay" := Str("Sunday")])).Failed?
  {
    var ok := Obj(map["openingTime" := Str("99:99"), "closingTime" := Str("25:61"), "weeklyOffDay" := Str("Sunday")]);
    assert Read(ok, "openingTime") == Str("99:99");
    assert Read(ok, "closingTime") == Str("25:61");
    assert Read(ok, "weeklyOffDay") == Str("Sunday");
    var bad := Obj(map["openingTime" := Str("9:00"), "closingTime" := Str("21:00"), "weeklyOffDay" := Str("Sunday")]);
    assert Read(bad, "openingTime") == Str("9:00");
    assert !ClockText("9:00");
  }

  /** The tax rate is coerced with `Number`: the text "18" counts as 18 and an empty text as 0. */
  lemma TaxTextCoerced()
    ensures Percent("defaultTaxPercent", Str("18")) == Checked([], 18.0)
    ensures Percent("defaultTaxPercent", Str("")) == Checked([], 0.0)
  {
    TrimUnchanged("18");
    TrimUnchanged("");
    assert IndexOf("18", '.') == None;
    assert AllDigits("18");
    assert DigitsValue("18") == 18 by {
      assert "18"[..1] == "1";
      assert "1"[..0] == "";
    }
    assert ParseNumber("18") == Real(18.0);
  }

  /** A missing or non-numeric tax rate is a type issue; one above 100 is too big. */
  lemma TaxRefused()
    ensures Percent("defaultTaxPercent", Undefined).issues == [Issue("defaultTaxPercent", InvalidType)]
    ensures Percent("defaultTaxPercent", Str("abc")).issues == [Issue("defaultTaxPercent", InvalidType)]
    ensures Percent("defaultTaxPercent", Num(101.0)).issues == [Issue("defaultTaxPercent", TooBig)]
  {
    TrimUnchanged("abc");
    assert IndexOf("abc", '.') == None;
    assert !AllDigits("abc");
    assert ParseNumber("abc") == NaN;
  }

  /** Refusals write nothing: 401, 403 and both 400s leave the stored settings as they were. */
  lemma RefusalsWriteNothing(stored: Option<Settings>, session: Option<Session>, business: Section, hours: Section,
                             lib: Library)
    ensures var (after, reply) := PostOutcome(stored, session, business, hours, lib);
      reply.Err? ==> after == stored
    ensures session.None? ==> PostOutcome(stored, session, business, hours, lib).1 == Err(401, "Unauthorized")
    ensures session.Some? && session.value.role != "ADMIN" ==>
      PostOutcome(stored, session, business, hours, lib).1 == Err(403, "Forbidden")
  {
  }

  /**
   * When both sections are invalid the reply lists the business issues
   * only; the hours are reported once the business section passes.
   */
  lemma BusinessReportedFirst(stored: Option<Settings>, s: Session, business: Section, hours: Section, lib: Library)
    requires s.role == "ADMIN"
    ensures ParseBusiness(business, lib.isEmail, lib.isUrl).Failed? ==>
      PostOutcome(stored, Some(s), business, hours, lib).1
        == Err(400, ErrorText(ParseBusiness(business, lib.isEmail, lib.isUrl).issues, lib.zodMessage))
    ensures ParseBusiness(business, lib.isEmail, lib.isUrl).Parsed? && ParseHours(hours).Failed? ==>
      PostOutcome(stored, Some(s), business, hours, lib).1 == Err(400, ErrorText(ParseHours(hours).issues, lib.zodMessage))
  {
  }

  /** An empty shop name with every other field valid is reported with the schema's own message alone. */
  lemma EmptyShopNameMessage(o: map<string, Val>, isEmail: string -> bool, isUrl: string -> bool, zodMessage: Issue -> string)
    requires Field(o, "shopName") == Str("")
    requires OtherRules(o, isEmail, isUrl)
    ensures ParseBusiness(Obj(o), isEmail, isUrl) == Failed([Issue("shopName", TooSmall)])
    ensures ErrorText(ParseBusiness(Obj(o), isEmail, isUrl).issues, zodMessage) == ShopNameRequired
  {
    var sec := Obj(o);
    OtherFieldsPass(o, isEmail, isUrl);
    var i1 := NonEmptyString("shopName", Read(sec, "shopName")).issues;
    assert i1 == [Issue("shopName", TooSmall)];
    assert ParseBusiness(sec, isEmail, isUrl).issues == i1 + [] + [] + [] + [] + [] + [] + [] + [] + [] + [] + [] + [] + [];
  }

  /** Under the other rules every field check but the shop name's passes. */
  lemma OtherFieldsPass(o: map<string, Val>, isEmail: string -> bool, isUrl: string -> bool)
    requires OtherRules(o, isEmail, isUrl)
    ensures var sec := Obj(o);
      OptionalString("contactNumber", Read(sec, "contactNumber")).issues == []
      && OptionalEmail("email", Read(sec, "email"), isEmail).issues == []
      && OptionalString("address", Read(sec, "address")).issues == []
      && OneOf("businessType", Read(sec, "businessType"), ["Salon", "Barbershop", "Spa"]).issues == []
      && OptionalString("gstNumber", Read(sec, "gstNumber")).issues == []
      && Percent("defaultTaxPercent", Read(sec, "defaultTaxPercent")).issues == []
      && OneOf("taxType", Read(sec, "taxType"), ["Inclusive", "Exclusive"]).issues == []
      && NonEmptyString("invoicePrefix", Read(sec, "invoicePrefix")).issues == []
      && OptionalString("invoiceFooterMessage", Read(sec, "invoiceFooterMessage")).issues == []
      && LogoUrl("logoUrl", Read(sec, "logoUrl"), isUrl).issues == []
      && NonEmptyString("currency", Read(sec, "currency")).issues == []
      && NonEmptyString("timezone", Read(sec, "timezone")).issues == []
      && OneOf("dateFormat", Read(sec, "dateFormat"), DateFormats).issues == []
  {
    var sec := Obj(o);
    assert OneOf("businessType", Read(sec, "businessType"), ["Salon", "Barbershop", "Spa"]).issues == [];
    assert OneOf("taxType", Read(sec, "taxType"), ["Inclusive", "Exclusive"]).issues == [];
    assert OneOf("dateFormat", Read(sec, "dateFormat"), DateFormats).issues == [];
  }

  /**
   * A successful POST replaces the two sections with the validated values,
   * keeps every other section (so FIFO mode stays on), and works without a
   * stored document over the defaults.
   */
  lemma PostReplacesProfile(stored: Option<Settings>, s: Session, business: Section, hours: Section, lib: Library)
    requires s.role == "ADMIN"
    requires ParseBusiness(business, lib.isEmail, lib.isUrl).Parsed? && ParseHours(hours).Parsed?
    requires stored.Some? ==> stored.value.inventory.fifoMode
    ensures var (after, reply) := PostOutcome(stored, Some(s), business, hours, lib);
      var base := SettingsApi.Current(stored);
      after.Some? && reply == Ok(200, Profile(after.value.business, after.value.workingHours))
      && after.value.business == ParseBusiness(business, lib.isEmail, lib.isUrl).value
      && after.value.workingHours == ParseHours(hours).value
      && after.value.inventory == base.inventory && after.value.inventory.fifoMode
      && after.value.procurement == base.procurement && after.value.alerts == base.alerts
      && after.value.permissions == base.permissions && after.value.ui == base.ui
      && after.value.security == base.security
  {
  }

  /** A GET right after a successful POST returns what the POST replied, and writes nothing. */
  lemma GetAfterPost(stored: Option<Settings>, s: Session, business: Section, hours: Section, lib: Library)
    requires s.role == "ADMIN"
    requires PostOutcome(stored, Some(s), business, hours, lib).1.Ok?
    ensures var (after, reply) := PostOutcome(stored, Some(s), business, hours, lib);
      GetOutcome(after, Some(s)) == (after, reply)
  {
  }

  /** The first GET creates the defaults and returns their two sections: the rupee sign as currency. */
  lemma FirstGetDefaults(s: Session)
    ensures GetOutcome(None, Some(s)) ==
      (Some(DefaultSettings()), Ok(200, Profile(DefaultBusiness(), DefaultWorkingHours())))
    ensures GetOutcome(None, Some(s)).1.value.business.currency == Rupee
  {
  }
}
