/**
 * internal/usecase/nonppob.go: NonPPOBUsecaseImpl.Create, which validates
 * a Non-PPOB order, serialises its details and history, formats one
 * 42-column INSERT into orders_nonppob and publishes it.
 *
 * `json.Marshal` is a foreign library: it is passed in as a Marshaller of
 * total functions that may fail with an error text. Unlike the PPOB
 * statement, this one embeds no re-serialised metadata: only the raw
 * request text goes into metadata_source.
 */
module NonPPOBUsecase {
  import opened Wrappers
  import opened Text
  import Json
  import opened Validation
  import Utility
  import opened Statement
  import opened NonPPOBModel
  import HttpStatus
  import Queue

  // ---------------------------------------------------------------- sub-documents

  /** `json.Marshal` on the two slices Create serialises. */
  datatype Marshaller = Marshaller(
    details: seq<NonPPOBOrderDetail> -> Result<string>,
    history: seq<NonPPOBOrderHistory> -> Result<string>)

  /** The serialised texts the statement embeds. */
  datatype Documents = Documents(details: string, history: string)

  /** nonppob.go:39-47: details, then history, must serialise, and the first failure is the error. */
  function Serialise(o: NonPPOBOrder, m: Marshaller): (r: Result<Documents>)
    ensures m.details(o.details).Failure? ==> r == Failure(m.details(o.details).error)
    ensures m.details(o.details).Success? && m.history(o.history).Failure? ==> r == Failure(m.history(o.history).error)
    ensures r.Success? <==> m.details(o.details).Success? && m.history(o.history).Success?
    ensures r.Success? ==> r.value == Documents(m.details(o.details).value, m.history(o.history).value)
  {
    match m.details(o.details)
    case Failure(e) => Failure(e)
    case Success(detailsJson) =>
      match m.history(o.history)
      case Failure(e) => Failure(e)
      case Success(historyJson) => Success(Documents(detailsJson, historyJson))
  }

  // ---------------------------------------------------------------- the statement

  const Table := "orders_nonppob"

  /** The column list of the format string, in order. */
  const Columns: seq<string> := [
    "id", "reference_id", "customer_id", "customer_name", "customer_phone", "customer_address",
    "tenant_id", "tenant_name", "store_id", "store_name", "delivery_method", "delivery_reference",
    "delivery_fee", "delivery_url", "payment_reference", "payment_channel", "payment_code",
    "payment_gateway", "payment_fee", "item_qty", "amount", "voucher_code", "voucher_amount",
    "discount", "service_fee", "insurance_fee", "total_before_tax", "total_tax", "total",
    "commission_jatis", "commission_aggregator", "commission_biller", "referral_code", "is_paid",
    "payment_status", "order_status", "expired_at", "created_at", "updated_at", "details",
    "history", "metadata_source"]

  /** The delivery URL Create uses: the pointed-to text, or "" for a nil pointer. */
  function DeliveryUrlUsed(o: NonPPOBOrder): string
  {
    if o.delivery.deliveryUrl.Some? then o.delivery.deliveryUrl.value else ""
  }

  /** One row of orders_nonppob, a value cell per column, as the statement writes it. */
  datatype NonPPOBRow = NonPPOBRow(
    id: string, referenceId: string, customerId: string, customerName: string, customerPhone: string,
    customerAddress: string, tenantId: string, tenantName: string, storeId: string, storeName: string,
    deliveryMethod: string, deliveryReference: string, deliveryFee: string, deliveryUrl: string,
    paymentReference: string, paymentChannel: string, paymentCode: string, paymentGateway: string,
    paymentFee: string, itemQty: string, amount: string, voucherCode: string, voucherAmount: string,
    discount: string, serviceFee: string, insuranceFee: string, totalBeforeTax: string,
    totalTax: string, total: string, commissionJatis: string, commissionAggregator: string,
    commissionBiller: string, referralCode: string, isPaid: string, paymentStatus: string,
    orderStatus: string, expiredAt: string, createdAt: string, updatedAt: string, details: string,
    history: string, metadataSource: string)

  /** The cells in the order of `Columns`: the argument list of the format string. */
  function Cells(r: NonPPOBRow): (cells: seq<string>)
    ensures |cells| == |Columns| == 42
  {
    [ r.id, r.referenceId, r.customerId, r.customerName, r.customerPhone, r.customerAddress,
      r.tenantId, r.tenantName, r.storeId, r.storeName, r.deliveryMethod, r.deliveryReference,
      r.deliveryFee, r.deliveryUrl, r.paymentReference, r.paymentChannel, r.paymentCode,
      r.paymentGateway, r.paymentFee, r.itemQty, r.amount, r.voucherCode, r.voucherAmount,
      r.discount, r.serviceFee, r.insuranceFee, r.totalBeforeTax, r.totalTax, r.total,
      r.commissionJatis, r.commissionAggregator, r.commissionBiller, r.referralCode, r.isPaid,
      r.paymentStatus, r.orderStatus, r.expiredAt, r.createdAt, r.updatedAt, r.details,
      r.history, r.metadataSource ]
  }

  /** The row Create writes for `o` and its serialised documents, column by column. */
  function Row(o: NonPPOBOrder, docs: Documents): NonPPOBRow
  {
    NonPPOBRow(
      id := TextOrNull(o.id),
      referenceId := TextOrNull(o.referenceId),
      customerId := TextOrNull(o.customer.id),
      customerName := TextOrNull(Escaped(o.customer.name)),
      customerPhone := TextOrNull(o.customer.phone),
      customerAddress := TextOrNull(o.customer.address),
      tenantId := TextOrNull(o.tenant.id),
      tenantName := TextOrNull(Escaped(o.tenant.name)),
      storeId := TextOrNull(o.store.id),
      storeName := TextOrNull(Escaped(o.store.name)),
      deliveryMethod := TextOrNull(Escaped(o.delivery.deliveryMethod)),
      deliveryReference := TextOrNull(o.delivery.referenceId),
      deliveryFee := DecimalText(o.deliveryFee),
      deliveryUrl := TextOrNull(Escaped(DeliveryUrlUsed(o))),
      paymentReference := TextOrNull(o.payment.referenceId),
      paymentChannel := TextOrNull(Escaped(o.payment.channel)),
      paymentCode := TextOrNull(Escaped(o.payment.paymentCode)),
      paymentGateway := TextOrNull(Escaped(o.payment.paymentGateway)),
      paymentFee := DecimalText(o.paymentFee),
      itemQty := DecimalText(o.itemQty),
      amount := DecimalText(o.amount),
      voucherCode := TextOrNull(o.voucherCode),
      voucherAmount := DecimalText(o.voucherAmount),
      discount := DecimalText(o.discount),
      serviceFee := DecimalText(o.serviceFee),
      insuranceFee := DecimalText(o.insuranceFee),
      totalBeforeTax := DecimalText(o.totalBeforeTax),
      totalTax := DecimalText(o.totalTax),
      total := DecimalText(o.total),
      commissionJatis := DecimalText(o.commissionFee.jatis),
      commissionAggregator := DecimalText(o.commissionFee.aggregator),
      commissionBiller := DecimalText(o.commissionFee.biller),
      referralCode := TextOrNull(o.referralCode),
      isPaid := BoolText(o.isPaid),
      paymentStatus := TextOrNull(o.paymentStatus),
      orderStatus := TextOrNull(o.orderStatus),
      expiredAt := TextOrNull(o.expiredAt),
      createdAt := TextOrNull(o.createdAt),
      updatedAt := TextOrNull(o.updatedAt),
      details := Utility.SafeJsonString(docs.details),
      history := Utility.SafeJsonString(docs.history),
      metadataSource := Utility.SafeJsonString(o.metadataRaw))
  }

  /** The statement Create publishes for `o`. */
  function Command(o: NonPPOBOrder, docs: Documents): string
  {
    InsertStatement(Table, Columns, Cells(Row(o, docs)))
  }

  /** What Create does with `o`: the statement to publish, or the error it returns before publishing. */
  function Outcome(o: NonPPOBOrder, m: Marshaller): Result<string>
  {
    match Validate(o)
    case Some(err) => Failure(Diagnostic(err))
    case None =>
      match Serialise(o, m)
      case Failure(e) => Failure(e)
      case Success(docs) => Success(Command(o, docs))
  }

  /**
   * nonppob.go:49-98, the part of Create after serialisation: dereferences
   * the delivery URL, escapes the SafeString fields and formats the
   * statement.
   */
  method FormatStatement(o: NonPPOBOrder, docs: Documents) returns (strSql: string)
    ensures strSql == Command(o, docs)
  {
    var deliveryUrl := "";
    if o.delivery.deliveryUrl.Some? {
      deliveryUrl := o.delivery.deliveryUrl.value;
    }

    var customerName := Utility.SafeString(o.customer.name);
    var tenantName := Utility.SafeString(o.tenant.name);
    var storeName := Utility.SafeString(o.store.name);
    var deliveryMethod := Utility.SafeString(o.delivery.deliveryMethod);
    var safeDeliveryUrl := Utility.SafeString(deliveryUrl);
    var channel := Utility.SafeString(o.payment.channel);
    var paymentCode := Utility.SafeString(o.payment.paymentCode);
    var paymentGateway := Utility.SafeString(o.payment.paymentGateway);

    var row := NonPPOBRow(
      TextOrNull(o.id),
      TextOrNull(o.referenceId),
      TextOrNull(o.customer.id),
      TextOrNull(customerName),
      TextOrNull(o.customer.phone),
      TextOrNull(o.customer.address),
      TextOrNull(o.tenant.id),
      TextOrNull(tenantName),
      TextOrNull(o.store.id),
      TextOrNull(storeName),
      TextOrNull(deliveryMethod),
      TextOrNull(o.delivery.referenceId),
      DecimalText(o.deliveryFee),
      TextOrNull(safeDeliveryUrl),
      TextOrNull(o.payment.referenceId),
      TextOrNull(channel),
      TextOrNull(paymentCode),
      TextOrNull(paymentGateway),
      DecimalText(o.paymentFee),
      DecimalText(o.itemQty),
      DecimalText(o.amount),
      TextOrNull(o.voucherCode),
      DecimalText(o.voucherAmount),
      DecimalText(o.discount),
      DecimalText(o.serviceFee),
      DecimalText(o.insuranceFee),
      DecimalText(o.totalBeforeTax),
      DecimalText(o.totalTax),
      DecimalText(o.total),
      DecimalText(o.commissionFee.jatis),
      DecimalText(o.commissionFee.aggregator),
      DecimalText(o.commissionFee.biller),
      TextOrNull(o.referralCode),
      BoolText(o.isPaid),
      TextOrNull(o.paymentStatus),
      TextOrNull(o.orderStatus),
      TextOrNull(o.expiredAt),
      TextOrNull(o.createdAt),
      TextOrNull(o.updatedAt),
      Utility.SafeJsonString(docs.details),
      Utility.SafeJsonString(docs.history),
      Utility.SafeJsonString(o.metadataRaw));
    assert row == Row(o, docs);
    strSql := InsertStatement(Table, Columns, Cells(row));
  }

  /**
   * nonppob.go NonPPOBUsecaseImpl.Create. Returns the validation
   * diagnostic, or a marshalling error, without publishing; otherwise
   * publishes the statement once and returns the broker's answer unchanged.
   */
  method Create(o: NonPPOBOrder, m: Marshaller, broker: Queue.Broker) returns (err: Option<string>)
    modifies broker
    ensures !Valid(o) ==> err == Some(Diagnostic(ValidationErrors(RequiredErrors(o))))
    ensures match Outcome(o, m)
            case Failure(e) => err == Some(e) && broker.delivered == old(broker.delivered)
            case Success(command) =>
              && err == broker.fault
              && broker.delivered == if err.None? then old(broker.delivered) + [command] else old(broker.delivered)
  {
    var validation := Validate(o);
    if validation.Some? {
      var msg := ValidationErrorHandle(validation.value);
      RejectedOutcome(o, m);
      return Some(msg);
    }

    var detailsJson := m.details(o.details);
    if detailsJson.Failure? {
      return Some(detailsJson.error);
    }
    var historyJson := m.history(o.history);
    if historyJson.Failure? {
      return Some(historyJson.error);
    }
    var docs := Documents(detailsJson.value, historyJson.value);
    assert Serialise(o, m) == Success(docs);

    var strSql := FormatStatement(o, docs);
    PublishedOutcome(o, m, docs);
    err := broker.Send(strSql);
  }

  /** An order the validator rejects is answered with the validator's diagnostic. */
  lemma RejectedOutcome(o: NonPPOBOrder, m: Marshaller)
    requires Validate(o).Some?
    ensures Validate(o).value == ValidationErrors(RequiredErrors(o))
    ensures Outcome(o, m) == Failure(Diagnostic(Validate(o).value))
  {
  }

  /** Once the order is valid and serialised, the outcome is the statement of its documents. */
  lemma PublishedOutcome(o: NonPPOBOrder, m: Marshaller, docs: Documents)
    requires Validate(o).None? && Serialise(o, m) == Success(docs)
    ensures Outcome(o, m) == Success(Command(o, docs))
  {
  }

  // ---------------------------------------------------------------- what the statement holds

  /** A failed validation is reported as the validator's diagnostic, and no statement is made. */
  lemma InvalidOrderOutcome(o: NonPPOBOrder, m: Marshaller)
    requires !Valid(o)
    ensures Outcome(o, m) == Failure(Diagnostic(ValidationErrors(RequiredErrors(o))))
    ensures HttpStatus.Outcomes(Outcome(o, m).error) == {HttpStatus.BadRequest}
  {
    InvalidOrderIsBadRequest(o);
  }

  /** A valid order whose details and history serialise always yields a statement. */
  lemma ValidOrderOutcome(o: NonPPOBOrder, m: Marshaller)
    requires Valid(o) && m.details(o.details).Success? && m.history(o.history).Success?
    ensures Outcome(o, m).Success?
    ensures Outcome(o, m).value == Command(o, Documents(m.details(o.details).value, m.history(o.history).value))
  {
  }

  /** delivery_url is NULL for a nil pointer; otherwise it is NULL exactly for "" and "[]", and holds the URL exactly. */
  lemma DeliveryUrlColumn(o: NonPPOBOrder, docs: Documents)
    ensures o.delivery.deliveryUrl.None? ==> Row(o, docs).deliveryUrl == "NULL"
    ensures o.delivery.deliveryUrl.Some? ==> StoresText(Row(o, docs).deliveryUrl, o.delivery.deliveryUrl.value)
  {
    EscapedTextStores(DeliveryUrlUsed(o));
    if o.delivery.deliveryUrl.None? {
      assert Escaped("") == "";
    }
  }

  /** Each SafeString column is NULL exactly for "" and "[]", and otherwise holds its field exactly, quotes included. */
  lemma EscapedColumns(o: NonPPOBOrder, docs: Documents)
    ensures StoresText(Row(o, docs).customerName, o.customer.name)
    ensures StoresText(Row(o, docs).tenantName, o.tenant.name)
    ensures StoresText(Row(o, docs).storeName, o.store.name)
    ensures StoresText(Row(o, docs).deliveryMethod, o.delivery.deliveryMethod)
    ensures StoresText(Row(o, docs).paymentChannel, o.payment.channel)
    ensures StoresText(Row(o, docs).paymentCode, o.payment.paymentCode)
    ensures StoresText(Row(o, docs).paymentGateway, o.payment.paymentGateway)
  {
    EscapedTextStores(o.customer.name);
    EscapedTextStores(o.tenant.name);
    EscapedTextStores(o.store.name);
    EscapedTextStores(o.delivery.deliveryMethod);
    EscapedTextStores(o.payment.channel);
    EscapedTextStores(o.payment.paymentCode);
    EscapedTextStores(o.payment.paymentGateway);
  }

  /** The other text columns are NullIfEmpty of their field, unescaped. */
  lemma RawColumns(o: NonPPOBOrder, docs: Documents)
    ensures StoresTextOrBreaks(Row(o, docs).id, o.id)
    ensures StoresTextOrBreaks(Row(o, docs).referenceId, o.referenceId)
    ensures StoresTextOrBreaks(Row(o, docs).customerId, o.customer.id)
    ensures StoresTextOrBreaks(Row(o, docs).customerPhone, o.customer.phone)
    ensures StoresTextOrBreaks(Row(o, docs).customerAddress, o.customer.address)
    ensures StoresTextOrBreaks(Row(o, docs).tenantId, o.tenant.id)
    ensures StoresTextOrBreaks(Row(o, docs).storeId, o.store.id)
    ensures StoresTextOrBreaks(Row(o, docs).deliveryReference, o.delivery.referenceId)
    ensures StoresTextOrBreaks(Row(o, docs).paymentReference, o.payment.referenceId)
    ensures StoresTextOrBreaks(Row(o, docs).voucherCode, o.voucherCode)
    ensures StoresTextOrBreaks(Row(o, docs).referralCode, o.referralCode)
    ensures StoresTextOrBreaks(Row(o, docs).paymentStatus, o.paymentStatus)
    ensures StoresTextOrBreaks(Row(o, docs).orderStatus, o.orderStatus)
    ensures StoresTextOrBreaks(Row(o, docs).expiredAt, o.expiredAt)
    ensures StoresTextOrBreaks(Row(o, docs).createdAt, o.createdAt)
    ensures StoresTextOrBreaks(Row(o, docs).updatedAt, o.updatedAt)
  {
    RawTextColumn(o.id);
    RawTextColumn(o.referenceId);
    RawTextColumn(o.customer.id);
    RawTextColumn(o.customer.phone);
    RawTextColumn(o.customer.address);
    RawTextColumn(o.tenant.id);
    RawTextColumn(o.store.id);
    RawTextColumn(o.delivery.referenceId);
    RawTextColumn(o.payment.referenceId);
    RawTextColumn(o.voucherCode);
    RawTextColumn(o.referralCode);
    RawTextColumn(o.paymentStatus);
    RawTextColumn(o.orderStatus);
    RawTextColumn(o.expiredAt);
    RawTextColumn(o.createdAt);
    RawTextColumn(o.updatedAt);
  }

  /** The amount columns are `%v` of their ints: decimal literals, 0 included, never NULL. */
  lemma AmountColumns(o: NonPPOBOrder, docs: Documents)
    ensures StoresInt(Row(o, docs).deliveryFee, o.deliveryFee)
    ensures StoresInt(Row(o, docs).paymentFee, o.paymentFee)
    ensures StoresInt(Row(o, docs).itemQty, o.itemQty)
    ensures StoresInt(Row(o, docs).amount, o.amount)
    ensures StoresInt(Row(o, docs).voucherAmount, o.voucherAmount)
    ensures StoresInt(Row(o, docs).discount, o.discount)
    ensures StoresInt(Row(o, docs).serviceFee, o.serviceFee)
    ensures StoresInt(Row(o, docs).insuranceFee, o.insuranceFee)
    ensures StoresInt(Row(o, docs).totalBeforeTax, o.totalBeforeTax)
    ensures StoresInt(Row(o, docs).totalTax, o.totalTax)
    ensures StoresInt(Row(o, docs).total, o.total)
    ensures StoresInt(Row(o, docs).commissionJatis, o.commissionFee.jatis)
    ensures StoresInt(Row(o, docs).commissionAggregator, o.commissionFee.aggregator)
    ensures StoresInt(Row(o, docs).commissionBiller, o.commissionFee.biller)
    ensures o.voucherAmount == 0 ==> Row(o, docs).voucherAmount == "0"
  {
    IntStores(o.deliveryFee);
    IntStores(o.paymentFee);
    IntStores(o.itemQty);
    IntStores(o.amount);
    IntStores(o.voucherAmount);
    IntStores(o.discount);
    IntStores(o.serviceFee);
    IntStores(o.insuranceFee);
    IntStores(o.totalBeforeTax);
    IntStores(o.totalTax);
    IntStores(o.total);
    IntStores(o.commissionFee.jatis);
    IntStores(o.commissionFee.aggregator);
    IntStores(o.commissionFee.biller);
  }

  /** is_paid is the bare keyword `true` exactly when the order is paid, and `false` otherwise. */
  lemma PaidColumn(o: NonPPOBOrder, docs: Documents)
    ensures Row(o, docs).isPaid == "true" <==> o.isPaid
    ensures Row(o, docs).isPaid == "false" <==> !o.isPaid
  {
  }

  /** The JSON columns are escape string constants of the serialised slices and of the raw request text. */
  lemma JsonColumns(o: NonPPOBOrder, docs: Documents)
    ensures StoresJson(Row(o, docs).details, docs.details)
    ensures StoresJson(Row(o, docs).history, docs.history)
    ensures StoresJson(Row(o, docs).metadataSource, o.metadataRaw)
    ensures Row(o, docs).details[..2] == "E'" && Row(o, docs).history[..2] == "E'"
    ensures Row(o, docs).metadataSource[..2] == "E'"
  {
    JsonStores(docs.details);
    JsonStores(docs.history);
    JsonStores(o.metadataRaw);
  }

  /** The decoded metadata of the order, its payment and its delivery never reach the statement. */
  lemma MetadataNotStored(o: NonPPOBOrder, docs: Documents, order: Json.Value, payment: Json.Value, delivery: Json.Value)
    ensures Command(o.(metadata := order, payment := o.payment.(metadata := payment),
                       delivery := o.delivery.(metadata := delivery)), docs)
            == Command(o, docs)
  {
  }
}
