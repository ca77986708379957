/**
 * The transaction record: the one entity of the service. A `Draft` is a
 * document before validation (every field may be missing, as in a request
 * body or a mapped CSV row); a `Transaction` is a document the schema has
 * accepted, with its seven required fields present and its defaults filled.
 */
module TransactionModel {
  import opened Wrappers

  /** A calendar instant, as milliseconds since the epoch; only its order matters here. */
  type Date = int

  const DEFAULT_CURRENCY: string := "INR"

  /** The schema's required paths, in declaration order. */
  const REQUIRED_FIELDS: seq<string> :=
    ["customerId", "customerName", "phoneNumber", "productId", "productName", "quantity", "date"]

  datatype Transaction = Transaction(
    // customer
    customerId: string,
    customerName: string,
    phoneNumber: string,
    gender: Option<string>,
    age: Option<int>,
    region: Option<string>,
    customerType: Option<string>,
    // product
    productId: string,
    productName: string,
    brand: Option<string>,
    category: Option<string>,
    tags: seq<string>,
    // sales
    quantity: int,
    pricePerUnit: Option<int>,
    discountPercent: Option<int>,
    totalAmount: Option<int>,
    currency: string,
    finalAmount: Option<int>,
    // operational
    date: Date,
    paymentMethod: Option<string>,
    orderStatus: Option<string>,
    deliveryType: Option<string>,
    storeId: Option<string>,
    storeLocation: Option<string>,
    salespersonId: Option<string>,
    employeeName: Option<string>,
    imageUrl: Option<string>)

  /** A document as supplied to the schema; `None` is a field that was not given. */
  datatype Draft = Draft(
    customerId: Option<string>,
    customerName: Option<string>,
    phoneNumber: Option<string>,
    gender: Option<string>,
    age: Option<int>,
    region: Option<string>,
    customerType: Option<string>,
    productId: Option<string>,
    productName: Option<string>,
    brand: Option<string>,
    category: Option<string>,
    tags: Option<seq<string>>,
    quantity: Option<int>,
    pricePerUnit: Option<int>,
    discountPercent: Option<int>,
    totalAmount: Option<int>,
    currency: Option<string>,
    finalAmount: Option<int>,
    date: Option<Date>,
    paymentMethod: Option<string>,
    orderStatus: Option<string>,
    deliveryType: Option<string>,
    storeId: Option<string>,
    storeLocation: Option<string>,
    salespersonId: Option<string>,
    employeeName: Option<string>,
    imageUrl: Option<string>)

  /** The draft that supplies no field at all. */
  const EMPTY_DRAFT: Draft := Draft(None, None, None, None, None, None, None, None, None, None, None, None, None,
                                    None, None, None, None, None, None, None, None, None, None, None, None, None, None)

  /** A required String path is satisfied only by a non-empty string (an empty string counts as missing). */
  predicate HasText(v: Option<string>) {
    v.Some? && v.value != ""
  }

  /** Whether `d` satisfies the `required` validator of the schema path named `field`; other names have none. */
  predicate Supplied(d: Draft, field: string) {
    if field == "customerId" then HasText(d.customerId)
    else if field == "customerName" then HasText(d.customerName)
    else if field == "phoneNumber" then HasText(d.phoneNumber)
    else if field == "productId" then HasText(d.productId)
    else if field == "productName" then HasText(d.productName)
    else if field == "quantity" then d.quantity.Some?
    else if field == "date" then d.date.Some?
    else true
  }

  /** The required paths `d` fails, in schema order. */
  function MissingFields(d: Draft): seq<string> {
    (if HasText(d.customerId) then [] else ["customerId"]) +
    (if HasText(d.customerName) then [] else ["customerName"]) +
    (if HasText(d.phoneNumber) then [] else ["phoneNumber"]) +
    (if HasText(d.productId) then [] else ["productId"]) +
    (if HasText(d.productName) then [] else ["productName"]) +
    (if d.quantity.Some? then [] else ["quantity"]) +
    (if d.date.Some? then [] else ["date"])
  }

  /** A record whose required strings are non-empty, as every validated record is. */
  predicate Storable(t: Transaction) {
    t.customerId != "" && t.customerName != "" && t.phoneNumber != "" && t.productId != "" && t.productName != ""
  }

  /** The draft that supplies every field of `t`. */
  function ToDraft(t: Transaction): Draft {
    Draft(Some(t.customerId), Some(t.customerName), Some(t.phoneNumber), t.gender, t.age, t.region, t.customerType,
          Some(t.productId), Some(t.productName), t.brand, t.category, Some(t.tags),
          Some(t.quantity), t.pricePerUnit, t.discountPercent, t.totalAmount, Some(t.currency), t.finalAmount,
          Some(t.date), t.paymentMethod, t.orderStatus, t.deliveryType, t.storeId, t.storeLocation,
          t.salespersonId, t.employeeName, t.imageUrl)
  }

  /** Schema validation as run when a document is saved; `ValidateSpec` states it. */
  function Validate(d: Draft): Result<Transaction, seq<string>> {
    var missing := MissingFields(d);
    if missing != [] then Err(missing)
    else
      Ok(Transaction(d.customerId.value, d.customerName.value, d.phoneNumber.value, d.gender, d.age, d.region,
                     d.customerType, d.productId.value, d.productName.value, d.brand, d.category, d.tags.GetOr([]),
                     d.quantity.value, d.pricePerUnit, d.discountPercent, d.totalAmount,
                     d.currency.GetOr(DEFAULT_CURRENCY), d.finalAmount, d.date.value, d.paymentMethod,
                     d.orderStatus, d.deliveryType, d.storeId, d.storeLocation, d.salespersonId,
                     d.employeeName, d.imageUrl))
  }

  /**
   * Validation fails, naming every missing required path, exactly when some
   * required path is missing; on success the record carries the draft's
   * fields, with currency defaulting to "INR" and tags to the empty list.
   */
  lemma ValidateSpec(d: Draft)
    ensures Validate(d).Err? <==> exists f :: f in REQUIRED_FIELDS && !Supplied(d, f)
    ensures Validate(d).Err? ==> forall f :: f in Validate(d).error <==> f in REQUIRED_FIELDS && !Supplied(d, f)
    ensures Validate(d).Ok? ==> Storable(Validate(d).value)
    ensures Validate(d).Ok? ==> Validate(d).value.currency == d.currency.GetOr(DEFAULT_CURRENCY) &&
                                Validate(d).value.tags == d.tags.GetOr([])
    ensures Validate(d).Ok? ==> ToDraft(Validate(d).value) ==
                                d.(currency := Some(Validate(d).value.currency), tags := Some(Validate(d).value.tags))
  {
    var missing := MissingFields(d);
    if missing != [] {
      assert missing[0] in REQUIRED_FIELDS && !Supplied(d, missing[0]);
    }
  }

  /** The message of a failed validation: the model name, then one `path: message` entry per missing path. */
  function ValidationMessage(missing: seq<string>): (msg: string)
    ensures |msg| >= |VALIDATION_FAILED| && msg[..|VALIDATION_FAILED|] == VALIDATION_FAILED
    ensures |msg| == |VALIDATION_FAILED| <==> missing == []
  {
    VALIDATION_FAILED + RequiredErrors(missing)
  }

  const VALIDATION_FAILED: string := "Transaction validation failed: "

  function RequiredErrors(missing: seq<string>): (errors: string)
    ensures errors == [] <==> missing == []
    decreases |missing|
  {
    if missing == [] then ""
    else
      var entry := missing[0] + ": Path `" + missing[0] + "` is required.";
      if |missing| == 1 then entry else entry + ", " + RequiredErrors(missing[1..])
  }

  /** Validation gives back every storable record from the draft that supplies all of its fields. */
  lemma ValidateToDraft(t: Transaction)
    requires Storable(t)
    ensures Validate(ToDraft(t)) == Ok(t)
  {
  }

  /** Supplying only the seven required paths is enough; everything else is absent or defaulted. */
  lemma RequiredOnlyAccepted(customerId: string, customerName: string, phoneNumber: string, productId: string,
                             productName: string, quantity: int, date: Date)
    requires customerId != "" && customerName != "" && phoneNumber != "" && productId != "" && productName != ""
    ensures var d := EMPTY_DRAFT.(customerId := Some(customerId), customerName := Some(customerName),
                                  phoneNumber := Some(phoneNumber), productId := Some(productId),
                                  productName := Some(productName), quantity := Some(quantity), date := Some(date));
            var r := Validate(d);
            && r.Ok?
            && r.value.currency == "INR" && r.value.tags == []
            && r.value.gender.None? && r.value.region.None? && r.value.totalAmount.None? && r.value.imageUrl.None?
            && r.value.customerId == customerId && r.value.quantity == quantity && r.value.date == date
  {
  }

  /** Leaving out any single required path is rejected, and the error names that path. */
  lemma MissingRequiredRejected(d: Draft, field: string)
    requires field in REQUIRED_FIELDS && !Supplied(d, field)
    ensures Validate(d).Err? && field in Validate(d).error
  {
  }

  /** The field of `p` when it is given, otherwise the one of `d`. */
  function Pick<T>(p: Option<T>, d: Option<T>): Option<T> {
    if p.Some? then p else d
  }

  /** The draft whose given fields are those of `p`, falling back to `d` field by field. */
  function Overlay(d: Draft, p: Draft): Draft {
    Draft(Pick(p.customerId, d.customerId), Pick(p.customerName, d.customerName), Pick(p.phoneNumber, d.phoneNumber),
          Pick(p.gender, d.gender), Pick(p.age, d.age), Pick(p.region, d.region), Pick(p.customerType, d.customerType),
          Pick(p.productId, d.productId), Pick(p.productName, d.productName), Pick(p.brand, d.brand),
          Pick(p.category, d.category), Pick(p.tags, d.tags), Pick(p.quantity, d.quantity),
          Pick(p.pricePerUnit, d.pricePerUnit), Pick(p.discountPercent, d.discountPercent),
          Pick(p.totalAmount, d.totalAmount), Pick(p.currency, d.currency), Pick(p.finalAmount, d.finalAmount),
          Pick(p.date, d.date), Pick(p.paymentMethod, d.paymentMethod), Pick(p.orderStatus, d.orderStatus),
          Pick(p.deliveryType, d.deliveryType), Pick(p.storeId, d.storeId), Pick(p.storeLocation, d.storeLocation),
          Pick(p.salespersonId, d.salespersonId), Pick(p.employeeName, d.employeeName), Pick(p.imageUrl, d.imageUrl))
  }

  /**
   * A partial update: every field the patch gives replaces the stored one and
   * every other field is kept. No validator runs, so a required string may be
   * set to the empty string.
   */
  function ApplyPatch(t: Transaction, p: Draft): (r: Transaction)
    ensures ToDraft(r) == Overlay(ToDraft(t), p)
  {
    Transaction(p.customerId.GetOr(t.customerId), p.customerName.GetOr(t.customerName),
                p.phoneNumber.GetOr(t.phoneNumber), Pick(p.gender, t.gender), Pick(p.age, t.age),
                Pick(p.region, t.region), Pick(p.customerType, t.customerType), p.productId.GetOr(t.productId),
                p.productName.GetOr(t.productName), Pick(p.brand, t.brand), Pick(p.category, t.category),
                p.tags.GetOr(t.tags), p.quantity.GetOr(t.quantity), Pick(p.pricePerUnit, t.pricePerUnit),
                Pick(p.discountPercent, t.discountPercent), Pick(p.totalAmount, t.totalAmount),
                p.currency.GetOr(t.currency), Pick(p.finalAmount, t.finalAmount), p.date.GetOr(t.date),
                Pick(p.paymentMethod, t.paymentMethod), Pick(p.orderStatus, t.orderStatus),
                Pick(p.deliveryType, t.deliveryType), Pick(p.storeId, t.storeId), Pick(p.storeLocation, t.storeLocation),
                Pick(p.salespersonId, t.salespersonId), Pick(p.employeeName, t.employeeName),
                Pick(p.imageUrl, t.imageUrl))
  }

  /** ToDraft loses nothing: two records with the same draft are the same record. */
  lemma ToDraftInjective(s: Transaction, t: Transaction)
    requires ToDraft(s) == ToDraft(t)
    ensures s == t
  {
  }

  /** An empty patch changes nothing, and applying the same patch twice is the same as applying it once. */
  lemma PatchLaws(t: Transaction, p: Draft)
    ensures ApplyPatch(t, EMPTY_DRAFT) == t
    ensures ApplyPatch(ApplyPatch(t, p), p) == ApplyPatch(t, p)
  {
    ToDraftInjective(ApplyPatch(t, EMPTY_DRAFT), t);
    ToDraftInjective(ApplyPatch(ApplyPatch(t, p), p), ApplyPatch(t, p));
  }
}
