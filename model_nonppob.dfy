/**
 * internal/handler/model/nonppob.go: the Non-PPOB order as decoded from
 * the request body, and what `validator.New().Struct` reports about it,
 * under the same reading of the validator as PPOBModel: fields in
 * declaration order, nested structs entered, slices not entered, one
 * `required` entry per empty string or zero int.
 */
module NonPPOBModel {
  import opened Wrappers
  import opened Text
  import Json
  import opened Validation
  import HttpStatus
  import FieldNames

  datatype NonPPOBOrder = NonPPOBOrder(
    id: string,
    referenceId: string,
    tenant: Tenant,
    store: Store,
    customer: NonPPOBCustomer,
    delivery: Delivery,
    payment: NonPPOBPayment,
    itemQty: int,
    amount: int,
    voucherCode: string,
    voucherAmount: int,
    serviceFee: int,
    paymentFee: int,
    deliveryFee: int,
    discount: int,
    insuranceFee: int,
    totalBeforeTax: int,
    totalTax: int,
    total: int,
    isPaid: bool,
    paymentStatus: string,
    orderStatus: string,
    expiredAt: string,
    createdAt: string,
    updatedAt: string,
    referralCode: string,
    commissionFee: CommissionFee,
    details: seq<NonPPOBOrderDetail>,
    history: seq<NonPPOBOrderHistory>,
    metadata: Json.Value,
    /** Not decoded from the body (`json:"-"`): the handler stores the raw request text here. */
    metadataRaw: string)

  datatype Tenant = Tenant(id: string, name: string)

  datatype Store = Store(id: string, name: string)

  datatype NonPPOBCustomer = NonPPOBCustomer(id: string, name: string, phone: string, address: string)

  /** `DeliveryUrl` is a `*string`: None is the nil pointer. */
  datatype Delivery = Delivery(
    deliveryMethod: string,
    referenceId: string,
    deliveryUrl: Option<string>,
    metadata: Json.Value)

  datatype NonPPOBPayment = NonPPOBPayment(
    referenceId: string,
    channel: string,
    paymentCode: string,
    paymentGateway: string,
    metadata: Json.Value)

  datatype CommissionFee = CommissionFee(jatis: int, aggregator: int, biller: int)

  datatype NonPPOBOrderDetail = NonPPOBOrderDetail(
    id: int,
    count: int,
    deducted: bool,
    note: string,
    itemId: string,
    itemName: string,
    basePrice: int,
    price: int,
    discount: int,
    createdAt: string,
    updatedAt: string)

  datatype NonPPOBOrderHistory = NonPPOBOrderHistory(
    id: int,
    orderId: int,
    orderStatus: string,
    description: string,
    metadata: Json.Value,
    createdAt: string)

  /** The order satisfies every `required` tag the validator evaluates. */
  predicate Valid(o: NonPPOBOrder)
  {
    && o.id != "" && o.referenceId != ""
    && o.tenant.id != "" && o.tenant.name != ""
    && o.store.id != "" && o.store.name != ""
    && o.customer.id != "" && o.customer.name != ""
    && o.delivery.deliveryMethod != ""
    && o.payment.referenceId != "" && o.payment.channel != ""
    && o.payment.paymentCode != "" && o.payment.paymentGateway != ""
    && o.itemQty != 0 && o.amount != 0
  }

  /** The `required` checks the validator makes, in the order it meets them. */
  function Checks(o: NonPPOBOrder): seq<Check>
  {
    [ Check("Id", o.id != ""),
      Check("ReferenceId", o.referenceId != ""),
      Check("Id", o.tenant.id != ""),
      Check("Name", o.tenant.name != ""),
      Check("Id", o.store.id != ""),
      Check("Name", o.store.name != ""),
      Check("Id", o.customer.id != ""),
      Check("Name", o.customer.name != ""),
      Check("Method", o.delivery.deliveryMethod != ""),
      Check("ReferenceId", o.payment.referenceId != ""),
      Check("Channel", o.payment.channel != ""),
      Check("PaymentCode", o.payment.paymentCode != ""),
      Check("PaymentGateway", o.payment.paymentGateway != ""),
      Check("ItemQty", o.itemQty != 0),
      Check("Amount", o.amount != 0) ]
  }

  lemma ChecksValid(o: NonPPOBOrder)
    ensures Valid(o) <==> forall i | 0 <= i < |Checks(o)| :: Checks(o)[i].isSet
  {
    var c := Checks(o);
    assert c[0].isSet == (o.id != "") && c[1].isSet == (o.referenceId != "");
    assert c[2].isSet == (o.tenant.id != "") && c[3].isSet == (o.tenant.name != "");
    assert c[4].isSet == (o.store.id != "") && c[5].isSet == (o.store.name != "");
    assert c[6].isSet == (o.customer.id != "") && c[7].isSet == (o.customer.name != "");
    assert c[8].isSet == (o.delivery.deliveryMethod != "") && c[9].isSet == (o.payment.referenceId != "");
    assert c[10].isSet == (o.payment.channel != "") && c[11].isSet == (o.payment.paymentCode != "");
    assert c[12].isSet == (o.payment.paymentGateway != "") && c[13].isSet == (o.itemQty != 0);
    assert c[14].isSet == (o.amount != 0);
  }

  lemma ChecksFields(o: NonPPOBOrder)
    ensures forall i | 0 <= i < |Checks(o)| ::
              Checks(o)[i].field in RequiredFields && Checks(o)[i].field in FieldNames.ReportedFields
  {
  }

  /** The Go names of the fields whose emptiness the validator reports. */
  const RequiredFields: set<string> :=
    {"Id", "ReferenceId", "Name", "Method", "Channel", "PaymentCode", "PaymentGateway", "ItemQty", "Amount"}

  /** The entries of `validator.ValidationErrors` for `o`, in the order the fields are declared. */
  function RequiredErrors(o: NonPPOBOrder): (r: seq<FieldError>)
    ensures r == [] <==> Valid(o)
    ensures forall e | e in r :: e.tag == "required" && e.param == "" && e.field in RequiredFields
    ensures forall e | e in r :: e.field in FieldNames.ReportedFields
    ensures o.amount == 0 ==> r[|r| - 1] == FieldError("required", "Amount", "")
    ensures |r| <= 15
  {
    var checks := Checks(o);
    ChecksValid(o);
    ChecksFields(o);
    MissingEmpty(checks);
    MissingFields(checks);
    MissingLast(checks);
    MissingLength(checks);
    Missing(checks)
  }

  /** `validator.Struct(order)`: None when the order is valid. */
  function Validate(o: NonPPOBOrder): (r: Option<ValidatorError>)
    ensures r.None? <==> Valid(o)
    ensures r.Some? ==> r.value.ValidationErrors? && r.value.errors != []
  {
    var errors := RequiredErrors(o);
    if errors == [] then None else Some(ValidationErrors(errors))
  }

  /** Phone, address, the delivery reference and URL, the optional amounts and the slices are never checked. */
  lemma UncheckedFieldsFree(o: NonPPOBOrder, phone: string, address: string, url: Option<string>,
                            details: seq<NonPPOBOrderDetail>, history: seq<NonPPOBOrderHistory>)
    ensures RequiredErrors(o.(customer := o.customer.(phone := phone, address := address),
                              delivery := o.delivery.(referenceId := "", deliveryUrl := url),
                              details := details, history := history, voucherCode := "",
                              voucherAmount := 0, deliveryFee := 0, discount := 0, total := 0,
                              isPaid := false, metadata := Json.Null))
            == RequiredErrors(o)
  {
  }

  /**
   * The validator's diagnostic for an invalid order names the last missing
   * field, lower-cased, followed by " required", and HTTP classification
   * makes it a 400 Bad Request whatever the map order.
   */
  lemma InvalidOrderIsBadRequest(o: NonPPOBOrder)
    requires !Valid(o)
    ensures var errors := RequiredErrors(o);
            Diagnostic(ValidationErrors(errors)) == ToLower(errors[|errors| - 1].field) + " required"
    ensures HttpStatus.Outcomes(Diagnostic(ValidationErrors(RequiredErrors(o)))) == {HttpStatus.BadRequest}
  {
    var errors := RequiredErrors(o);
    var last := errors[|errors| - 1];
    assert last in errors;
    RequiredDiagnostic(errors);
    FieldNames.ReportedFieldClassifies(last.field);
    HttpStatus.RequiredMessageIsBadRequest(last.field);
  }
}
