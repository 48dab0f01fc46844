/**
 * internal/handler/model/ppob.go: the PPOB order as decoded from the
 * request body, and what `validator.New().Struct` reports about it.
 *
 * The validator is reduced to what the `validate:"required"` tags of this
 * schema make it do: it walks the fields in declaration order, descends
 * into nested structs (a `required` tag on a struct-typed field is itself
 * not evaluated), does not descend into slices (no `dive` tag on Details
 * or History), and reports one `required` entry, carrying the Go field
 * name, for each empty string or zero int it meets.
 */
module PPOBModel {
  import opened Wrappers
  import opened Text
  import Json
  import opened Validation
  import HttpStatus
  import FieldNames

  datatype PPOBOrder = PPOBOrder(
    id: string,
    referenceId: string,
    customer: PPOBCustomer,
    product: PPOBProduct,
    category: PPOBCategory,
    payment: PPOBPayment,
    commissionFee: PPOBCommissionFee,
    amount: int,
    serviceFee: int,
    paymentFee: int,
    totalTax: int,
    totalFee: int,
    total: int,
    paymentStatus: string,
    orderStatus: string,
    expiredAt: string,
    createdAt: string,
    updatedAt: string,
    source: string,
    details: seq<PPOBOrderDetail>,
    history: seq<PPOBOrderHistory>,
    metadata: Json.Value,
    /** Not decoded from the body (`json:"-"`): the handler stores the raw request text here. */
    metadataRaw: string)

  datatype PPOBCustomer = PPOBCustomer(id: string, name: string, customerType: string, phone: string)

  datatype PPOBProduct = PPOBProduct(id: string, name: string, category: string)

  datatype PPOBCategory = PPOBCategory(id: string, name: string)

  datatype PPOBPayment = PPOBPayment(
    referenceId: string,
    channel: string,
    paymentCode: string,
    paymentGateway: string,
    metadata: Json.Value)

  datatype PPOBCommissionFee = PPOBCommissionFee(jatis: int, aggregator: int, biller: int)

  datatype PPOBOrderDetail = PPOBOrderDetail(
    id: string,
    itemId: string,
    itemParentId: string,
    inquiry: PPOBInquiry,
    itemName: string,
    nominal: int,
    transactionStatus: string,
    price: int,
    tax: int,
    fee: int,
    reference: string,
    metadata: Json.Value,
    createdAt: string,
    updatedAt: string,
    updatedBy: string,
    productCode: string)

  datatype PPOBInquiry = PPOBInquiry(
    id: string,
    accountRef: string,
    expiry: string,
    response: Json.Value,
    createdAt: string,
    updatedAt: Option<string>,
    deletedAt: Option<string>)

  datatype PPOBOrderHistory = PPOBOrderHistory(
    id: string,
    status: string,
    metadata: Json.Value,
    createdAt: string,
    createdBy: string)

  /** The shape `Metadata.aggregator` is expected to have. */
  datatype Aggregator = Aggregator(id: string, name: string, contact: string)

  /** The order satisfies every `required` tag the validator evaluates. */
  predicate Valid(o: PPOBOrder)
  {
    && o.id != "" && o.referenceId != ""
    && o.customer.id != "" && o.customer.name != "" && o.customer.customerType != ""
    && o.payment.referenceId != "" && o.payment.channel != ""
    && o.payment.paymentCode != "" && o.payment.paymentGateway != ""
    && o.amount != 0
  }

  /**
   * The `required` checks the validator makes, in the order it meets them:
   * the Go field name and whether the field is set.
   */
  function Checks(o: PPOBOrder): seq<Check>
  {
    [ Check("Id", o.id != ""),
      Check("ReferenceId", o.referenceId != ""),
      Check("Id", o.customer.id != ""),
      Check("Name", o.customer.name != ""),
      Check("Type", o.customer.customerType != ""),
      Check("ReferenceId", o.payment.referenceId != ""),
      Check("Channel", o.payment.channel != ""),
      Check("PaymentCode", o.payment.paymentCode != ""),
      Check("PaymentGateway", o.payment.paymentGateway != ""),
      Check("Amount", o.amount != 0) ]
  }

  lemma ChecksValid(o: PPOBOrder)
    ensures Valid(o) <==> forall i | 0 <= i < |Checks(o)| :: Checks(o)[i].isSet
  {
    var c := Checks(o);
    assert c[0].isSet == (o.id != "") && c[1].isSet == (o.referenceId != "");
    assert c[2].isSet == (o.customer.id != "") && c[3].isSet == (o.customer.name != "");
    assert c[4].isSet == (o.customer.customerType != "") && c[5].isSet == (o.payment.referenceId != "");
    assert c[6].isSet == (o.payment.channel != "") && c[7].isSet == (o.payment.paymentCode != "");
    assert c[8].isSet == (o.payment.paymentGateway != "") && c[9].isSet == (o.amount != 0);
  }

  lemma ChecksFields(o: PPOBOrder)
    ensures forall i | 0 <= i < |Checks(o)| ::
              Checks(o)[i].field in RequiredFields && Checks(o)[i].field in FieldNames.ReportedFields
  {
  }

  /** The Go names of the fields whose emptiness the validator reports. */
  const RequiredFields: set<string> :=
    {"Id", "ReferenceId", "Name", "Type", "Channel", "PaymentCode", "PaymentGateway", "Amount"}

  /** The entries of `validator.ValidationErrors` for `o`, in the order the fields are declared. */
  function RequiredErrors(o: PPOBOrder): (r: seq<FieldError>)
    ensures r == [] <==> Valid(o)
    ensures forall e | e in r :: e.tag == "required" && e.param == "" && e.field in RequiredFields
    ensures forall e | e in r :: e.field in FieldNames.ReportedFields
    ensures o.amount == 0 ==> r[|r| - 1] == FieldError("required", "Amount", "")
    ensures |r| <= 10
  {
    var checks := Checks(o);
    ChecksValid(o);
    ChecksFields(o);
    MissingEmpty(checks);
    MissingFields(checks);
    MissingLast(checks);
    MissingLength(checks);
    Missing(checks)
  }

  /** `validator.Struct(order)`: None when the order is valid. */
  function Validate(o: PPOBOrder): (r: Option<ValidatorError>)
    ensures r.None? <==> Valid(o)
    ensures r.Some? ==> r.value.ValidationErrors? && r.value.errors != []
  {
    var errors := RequiredErrors(o);
    if errors == [] then None else Some(ValidationErrors(errors))
  }

  /** Product, category, commission and the other amounts are never checked. */
  lemma UncheckedFieldsFree(o: PPOBOrder, product: PPOBProduct, category: PPOBCategory,
                            fee: PPOBCommissionFee, details: seq<PPOBOrderDetail>, history: seq<PPOBOrderHistory>)
    ensures RequiredErrors(o.(product := product, category := category, commissionFee := fee,
                              details := details, history := history, serviceFee := 0, paymentFee := 0,
                              totalTax := 0, totalFee := 0, total := 0, metadata := Json.Null))
            == RequiredErrors(o)
  {
  }

  /**
   * The validator's diagnostic for an invalid order names the last missing
   * field, lower-cased, followed by " required", and HTTP classification
   * makes it a 400 Bad Request whatever the map order.
   */
  lemma InvalidOrderIsBadRequest(o: PPOBOrder)
    requires !Valid(o)
    ensures var errors := RequiredErrors(o);
            Diagnostic(ValidationErrors(errors)) == ToLower(errors[|errors| - 1].field) + " required"
    ensures HttpStatus.Outcomes(Diagnostic(ValidationErrors(RequiredErrors(o)))) == {HttpStatus.BadRequest}
  {
    var errors := RequiredErrors(o);
    var last := errors[|errors| - 1];
    assert last in errors;
    RequiredDiagnostic(errors);
    FieldNames.ReportedFieldClassifies(last.field);
    HttpStatus.RequiredMessageIsBadRequest(last.field);
  }
}
