/**
 * internal/usecase/ppob.go: extractAggregatorMetadata and
 * PPOBUsecaseImpl.Create, which validates a PPOB order, serialises its
 * sub-documents, picks the derived fields, formats one 39-column INSERT
 * into orders_ppob and publishes it.
 *
 * `json.Marshal` is a foreign library: it is passed in as a Marshaller of
 * total functions that may fail with an error text.
 */
module PPOBUsecase {
  import opened Wrappers
  import opened Text
  import Json
  import opened Validation
  import Utility
  import opened Statement
  import opened PPOBModel
  import Queue

  // ---------------------------------------------------------------- extractAggregatorMetadata

  /** `agg[key].(string)`: the string under `key`, or "" when it is missing or not a string. */
  function StringMember(agg: map<string, Json.Value>, key: string): string
  {
    if key in agg && agg[key].String? then agg[key].text else ""
  }

  /**
   * ppob.go extractAggregatorMetadata: (id, name, contact) of the object
   * under "aggregator", each taken on its own and only when it is a string.
   */
  function ExtractAggregatorMetadata(metadata: Json.Value): (r: (string, string, string))
    ensures r.0 == Json.StringAt(metadata, ["aggregator", "id"])
    ensures r.1 == Json.StringAt(metadata, ["aggregator", "name"])
    ensures r.2 == Json.StringAt(metadata, ["aggregator", "contact"])
    ensures !metadata.Object? ==> r == ("", "", "")
    ensures metadata.Object? && "aggregator" !in metadata.members ==> r == ("", "", "")
    ensures metadata.Object? && "aggregator" in metadata.members && !metadata.members["aggregator"].Object?
            ==> r == ("", "", "")
  {
    if !metadata.Object? then ("", "", "")
    else if "aggregator" !in metadata.members then ("", "", "")
    else if !metadata.members["aggregator"].Object? then ("", "", "")
    else
      var agg := metadata.members["aggregator"].members;
      assert ["aggregator", "id"][1..] == ["id"] && ["id"][1..] == [];
      assert ["aggregator", "name"][1..] == ["name"] && ["name"][1..] == [];
      assert ["aggregator", "contact"][1..] == ["contact"] && ["contact"][1..] == [];
      (StringMember(agg, "id"), StringMember(agg, "name"), StringMember(agg, "contact"))
  }

  /** The JSON document an `AggregatorMetadata{Aggregator: &a}` decodes to. */
  function AggregatorDocument(a: Aggregator): Json.Value
  {
    Json.Object(map["aggregator" := Json.Object(map[
      "id" := Json.String(a.id),
      "name" := Json.String(a.name),
      "contact" := Json.String(a.contact)])])
  }

  /** Extraction gives back exactly the aggregator the document was made from. */
  lemma ExtractAggregatorRoundTrip(a: Aggregator)
    ensures ExtractAggregatorMetadata(AggregatorDocument(a)) == (a.id, a.name, a.contact)
  {
    var agg := map["id" := Json.String(a.id), "name" := Json.String(a.name), "contact" := Json.String(a.contact)];
    assert StringMember(agg, "id") == a.id;
    assert StringMember(agg, "name") == a.name;
    assert StringMember(agg, "contact") == a.contact;
  }

  /** Members other than strings, and other members, leave their slot empty without disturbing the others. */
  lemma ExtractAggregatorIgnoresNonStrings(id: string, other: Json.Value)
    requires !other.String?
    ensures ExtractAggregatorMetadata(Json.Object(map["aggregator" := Json.Object(map[
              "id" := Json.String(id), "name" := other, "phone" := Json.String("x")])])) == (id, "", "")
  {
    var agg := map["id" := Json.String(id), "name" := other, "phone" := Json.String("x")];
    assert StringMember(agg, "id") == id;
    assert StringMember(agg, "name") == "";
    assert "contact" !in agg;
  }

  // ---------------------------------------------------------------- sub-documents

  /** `json.Marshal` on the three kinds of value Create serialises. */
  datatype Marshaller = Marshaller(
    details: seq<PPOBOrderDetail> -> Result<string>,
    history: seq<PPOBOrderHistory> -> Result<string>,
    value: Json.Value -> Result<string>)

  /** `b, _ := json.Marshal(v); string(b)`: the error is dropped and a failure leaves "". */
  function ErrorDropped(r: Result<string>): string
  {
    if r.Success? then r.value else ""
  }

  /** The serialised texts the statement embeds. */
  datatype Documents = Documents(details: string, history: string, metadata: string, paymentMetadata: string)

  /** ppob.go:73-81 and 108-109: details, then history, must serialise; the metadata failures are ignored. */
  function Serialise(o: PPOBOrder, m: Marshaller): (r: Result<Documents>)
    ensures m.details(o.details).Failure? ==> r == Failure(m.details(o.details).error)
    ensures m.details(o.details).Success? && m.history(o.history).Failure? ==> r == Failure(m.history(o.history).error)
    ensures r.Success? <==> m.details(o.details).Success? && m.history(o.history).Success?
    ensures r.Success? ==> r.value.details == m.details(o.details).value && r.value.history == m.history(o.history).value
    ensures r.Success? ==> r.value.metadata == ErrorDropped(m.value(o.metadata))
    ensures r.Success? ==> r.value.paymentMetadata == ErrorDropped(m.value(o.payment.metadata))
    ensures r.Success? && m.value(o.metadata).Failure? ==> r.value.metadata == ""
    ensures r.Success? && m.value(o.payment.metadata).Failure? ==> r.value.paymentMetadata == ""
    ensures r.Success? && m.value(o.metadata).Success? ==> r.value.metadata == m.value(o.metadata).value
    ensures r.Success? && m.value(o.payment.metadata).Success? ==> r.value.paymentMetadata == m.value(o.payment.metadata).value
  {
    match m.details(o.details)
    case Failure(e) => Failure(e)
    case Success(detailsJson) =>
      match m.history(o.history)
      case Failure(e) => Failure(e)
      case Success(historyJson) =>
        Success(Documents(detailsJson, historyJson,
                          ErrorDropped(m.value(o.metadata)), ErrorDropped(m.value(o.payment.metadata))))
  }

  // ---------------------------------------------------------------- the statement

  const Table := "orders_ppob"

  /** The column list of the format string, in order. */
  const Columns: seq<string> := [
    "id", "reference_id", "customer_id", "customer_name", "customer_type", "customer_phone",
    "product_id", "product_name", "product_category", "category_id", "category_name", "account_ref",
    "payment_reference", "payment_channel", "payment_code", "payment_gateway", "payment_metadata",
    "amount", "commission_jatis", "commission_biller", "commission_aggregator", "service_fee",
    "payment_fee", "total_tax", "total_fee", "total", "payment_status", "order_status", "source",
    "expired_at", "created_at", "updated_at", "aggregator_id", "aggregator_name", "aggregator_phone",
    "metadata", "details", "history", "metadata_source"]

  /** The product fields Create uses: the order's product when its id is set, all empty otherwise. */
  function ProductUsed(o: PPOBOrder): PPOBProduct
  {
    if o.product.id != "" then o.product else PPOBProduct("", "", "")
  }

  /** The category fields Create uses: the order's category when its id is set, all empty otherwise. */
  function CategoryUsed(o: PPOBOrder): PPOBCategory
  {
    if o.category.id != "" then o.category else PPOBCategory("", "")
  }

  /** The account reference of the first detail's inquiry, or "" without details. */
  function AccountRef(o: PPOBOrder): string
  {
    if |o.details| > 0 then o.details[0].inquiry.accountRef else ""
  }

  /** One row of orders_ppob, a value cell per column, as the statement writes it. */
  datatype PPOBRow = PPOBRow(
    id: string, referenceId: string, customerId: string, customerName: string, customerType: string,
    customerPhone: string, productId: string, productName: string, productCategory: string,
    categoryId: string, categoryName: string, accountRef: string, paymentReference: string,
    paymentChannel: string, paymentCode: string, paymentGateway: string, paymentMetadata: string,
    amount: string, commissionJatis: string, commissionBiller: string, commissionAggregator: string,
    serviceFee: string, paymentFee: string, totalTax: string, totalFee: string, total: string,
    paymentStatus: string, orderStatus: string, source: string, expiredAt: string, createdAt: string,
    updatedAt: string, aggregatorId: string, aggregatorName: string, aggregatorPhone: string,
    metadata: string, details: string, history: string, metadataSource: string)

  /** The cells in the order of `Columns`: the argument list of the format string. */
  function Cells(r: PPOBRow): (cells: seq<string>)
    ensures |cells| == |Columns| == 39
  {
    [ r.id, r.referenceId, r.customerId, r.customerName, r.customerType, r.customerPhone,
      r.productId, r.productName, r.productCategory, r.categoryId, r.categoryName, r.accountRef,
      r.paymentReference, r.paymentChannel, r.paymentCode, r.paymentGateway, r.paymentMetadata,
      r.amount, r.commissionJatis, r.commissionBiller, r.commissionAggregator, r.serviceFee,
      r.paymentFee, r.totalTax, r.totalFee, r.total, r.paymentStatus, r.orderStatus, r.source,
      r.expiredAt, r.createdAt, r.updatedAt, r.aggregatorId, r.aggregatorName, r.aggregatorPhone,
      r.metadata, r.details, r.history, r.metadataSource ]
  }

  /** The row Create writes for `o` and its serialised documents, column by column. */
  function Row(o: PPOBOrder, docs: Documents): PPOBRow
  {
    var aggregator := ExtractAggregatorMetadata(o.metadata);
    var product := ProductUsed(o);
    var category := CategoryUsed(o);
    PPOBRow(
      id := TextOrNull(o.id),
      referenceId := TextOrNull(o.referenceId),
      customerId := TextOrNull(o.customer.id),
      customerName := TextOrNull(Escaped(o.customer.name)),
      customerType := TextOrNull(Escaped(o.customer.customerType)),
      customerPhone := TextOrNull(o.customer.phone),
      productId := TextOrNull(product.id),
      productName := TextOrNull(Escaped(product.name)),
      productCategory := TextOrNull(Escaped(product.category)),
      categoryId := TextOrNull(category.id),
      categoryName := TextOrNull(Escaped(category.name)),
      accountRef := TextOrNull(AccountRef(o)),
      paymentReference := TextOrNull(o.payment.referenceId),
      paymentChannel := TextOrNull(Escaped(o.payment.channel)),
      paymentCode := TextOrNull(Escaped(o.payment.paymentCode)),
      paymentGateway := TextOrNull(Escaped(o.payment.paymentGateway)),
      paymentMetadata := Utility.SafeJsonString(docs.paymentMetadata),
      amount := DecimalText(o.amount),
      commissionJatis := DecimalText(o.commissionFee.jatis),
      commissionBiller := DecimalText(o.commissionFee.biller),
      commissionAggregator := DecimalText(o.commissionFee.aggregator),
      serviceFee := DecimalText(o.serviceFee),
      paymentFee := DecimalText(o.paymentFee),
      totalTax := DecimalText(o.totalTax),
      totalFee := DecimalText(o.totalFee),
      total := DecimalText(o.total),
      paymentStatus := TextOrNull(o.paymentStatus),
      orderStatus := TextOrNull(o.orderStatus),
      source := TextOrNull(o.source),
      expiredAt := TextOrNull(o.expiredAt),
      createdAt := TextOrNull(o.createdAt),
      updatedAt := TextOrNull(o.updatedAt),
      aggregatorId := TextOrNull(aggregator.0),
      aggregatorName := TextOrNull(Escaped(aggregator.1)),
      aggregatorPhone := TextOrNull(aggregator.2),
      metadata := Utility.SafeJsonString(docs.metadata),
      details := Utility.SafeJsonString(docs.details),
      history := Utility.SafeJsonString(docs.history),
      metadataSource := Utility.SafeJsonString(o.metadataRaw))
  }

  /** The statement Create publishes for `o`. */
  function Command(o: PPOBOrder, docs: Documents): string
  {
    InsertStatement(Table, Columns, Cells(Row(o, docs)))
  }

  /** What Create does with `o`: the statement to publish, or the error it returns before publishing. */
  function Outcome(o: PPOBOrder, m: Marshaller): Result<string>
  {
    match Validate(o)
    case Some(err) => Failure(Diagnostic(err))
    case None =>
      match Serialise(o, m)
      case Failure(e) => Failure(e)
      case Success(docs) => Success(Command(o, docs))
  }

  /**
   * ppob.go:83-151, the part of Create after serialisation: picks the
   * aggregator, product, category and account-reference fields, escapes
   * the SafeString fields and formats the statement.
   */
  method FormatStatement(o: PPOBOrder, docs: Documents) returns (strSql: string)
    ensures strSql == Command(o, docs)
  {
    var aggregator := ExtractAggregatorMetadata(o.metadata);
    var aggregatorId, aggregatorName, aggregatorPhone := aggregator.0, aggregator.1, aggregator.2;

    var productId, productName, productCategory := "", "", "";
    if o.product.id != "" {
      productId, productName, productCategory := o.product.id, o.product.name, o.product.category;
    }

    var categoryId, categoryName := "", "";
    if o.category.id != "" {
      categoryId, categoryName := o.category.id, o.category.name;
    }

    var accountRef := "";
    if |o.details| > 0 {
      accountRef := o.details[0].inquiry.accountRef;
    }

    var customerName := Utility.SafeString(o.customer.name);
    var customerType := Utility.SafeString(o.customer.customerType);
    var safeProductName := Utility.SafeString(productName);
    var safeProductCategory := Utility.SafeString(productCategory);
    var safeCategoryName := Utility.SafeString(categoryName);
    var channel := Utility.SafeString(o.payment.channel);
    var paymentCode := Utility.SafeString(o.payment.paymentCode);
    var paymentGateway := Utility.SafeString(o.payment.paymentGateway);
    var safeAggregatorName := Utility.SafeString(aggregatorName);

    var row := PPOBRow(
      TextOrNull(o.id),
      TextOrNull(o.referenceId),
      TextOrNull(o.customer.id),
      TextOrNull(customerName),
      TextOrNull(customerType),
      TextOrNull(o.customer.phone),
      TextOrNull(productId),
      TextOrNull(safeProductName),
      TextOrNull(safeProductCategory),
      TextOrNull(categoryId),
      TextOrNull(safeCategoryName),
      TextOrNull(accountRef),
      TextOrNull(o.payment.referenceId),
      TextOrNull(channel),
      TextOrNull(paymentCode),
      TextOrNull(paymentGateway),
      Utility.SafeJsonString(docs.paymentMetadata),
      DecimalText(o.amount),
      DecimalText(o.commissionFee.jatis),
      DecimalText(o.commissionFee.biller),
      DecimalText(o.commissionFee.aggregator),
      DecimalText(o.serviceFee),
      DecimalText(o.paymentFee),
      DecimalText(o.totalTax),
      DecimalText(o.totalFee),
      DecimalText(o.total),
      TextOrNull(o.paymentStatus),
      TextOrNull(o.orderStatus),
      TextOrNull(o.source),
      TextOrNull(o.expiredAt),
      TextOrNull(o.createdAt),
      TextOrNull(o.updatedAt),
      TextOrNull(aggregatorId),
      TextOrNull(safeAggregatorName),
      TextOrNull(aggregatorPhone),
      Utility.SafeJsonString(docs.metadata),
      Utility.SafeJsonString(docs.details),
      Utility.SafeJsonString(docs.history),
      Utility.SafeJsonString(o.metadataRaw));
    assert row == Row(o, docs);
    strSql := InsertStatement(Table, Columns, Cells(row));

  }

  /**
   * ppob.go PPOBUsecaseImpl.Create. Returns the validation diagnostic, or
   * a marshalling error, without publishing; otherwise publishes the
   * statement once and returns the broker's answer unchanged.
   */
  method Create(o: PPOBOrder, m: Marshaller, broker: Queue.Broker) returns (err: Option<string>)
    modifies broker
    ensures !Valid(o) ==> err == Some(Diagnostic(ValidationErrors(RequiredErrors(o))))
    ensures match Outcome(o, m)
            case Failure(e) => err == Some(e) && broker.delivered == old(broker.delivered)
            case Success(command) =>
              && err == broker.fault
              && broker.delivered == if err.None? then old(broker.delivered) + [command] else old(broker.delivered)
  {
    var validation := Validate(o);
    if validation.Some? {
      var msg := ValidationErrorHandle(validation.value);
      return Some(msg);
    }

    var detailsJson := m.details(o.details);
    if detailsJson.Failure? {
      return Some(detailsJson.error);
    }
    var historyJson := m.history(o.history);
    if historyJson.Failure? {
      return Some(historyJson.error);
    }

    var metadataJson := ErrorDropped(m.value(o.metadata));
    var paymentMetadataJson := ErrorDropped(m.value(o.payment.metadata));
    var docs := Documents(detailsJson.value, historyJson.value, metadataJson, paymentMetadataJson);
    assert Serialise(o, m) == Success(docs);

    var strSql := FormatStatement(o, docs);
    err := broker.Send(strSql);
  }

  // ---------------------------------------------------------------- what the statement holds

  /** A failed validation is reported as the validator's diagnostic, and no statement is made. */
  lemma InvalidOrderOutcome(o: PPOBOrder, m: Marshaller)
    requires !Valid(o)
    ensures Outcome(o, m) == Failure(Diagnostic(ValidationErrors(RequiredErrors(o))))
    ensures HttpStatus.Outcomes(Outcome(o, m).error) == {HttpStatus.BadRequest}
  {
    InvalidOrderIsBadRequest(o);
  }

  /** A valid order whose details and history serialise always yields a statement. */
  lemma ValidOrderOutcome(o: PPOBOrder, m: Marshaller)
    requires Valid(o) && m.details(o.details).Success? && m.history(o.history).Success?
    ensures Outcome(o, m).Success?
    ensures Outcome(o, m).value == Command(o, Serialise(o, m).value)
  {
  }

  /** account_ref is the first detail's inquiry account reference, and NULL without details. */
  lemma AccountRefColumn(o: PPOBOrder, docs: Documents)
    ensures o.details == [] ==> Row(o, docs).accountRef == "NULL"
    ensures o.details != [] ==> StoresTextOrBreaks(Row(o, docs).accountRef, o.details[0].inquiry.accountRef)
  {
    if o.details != [] {
      RawTextColumn(o.details[0].inquiry.accountRef);
    }
  }

  /** The product columns are NULL unless the product id is set; then they hold the product. */
  lemma ProductColumns(o: PPOBOrder, docs: Documents)
    ensures o.product.id == "" ==>
              Row(o, docs).productId == "NULL" && Row(o, docs).productName == "NULL" && Row(o, docs).productCategory == "NULL"
    ensures o.product.id != "" ==> && StoresTextOrBreaks(Row(o, docs).productId, o.product.id)
                                   && StoresText(Row(o, docs).productName, o.product.name)
                                   && StoresText(Row(o, docs).productCategory, o.product.category)
  {
    EscapedTextStores(ProductUsed(o).name);
    EscapedTextStores(ProductUsed(o).category);
    RawTextColumn(ProductUsed(o).id);
    if o.product.id == "" {
      assert Escaped("") == "";
    }
  }

  /** The category columns are NULL unless the category id is set; then they hold the category. */
  lemma CategoryColumns(o: PPOBOrder, docs: Documents)
    ensures o.category.id == "" ==> Row(o, docs).categoryId == "NULL" && Row(o, docs).categoryName == "NULL"
    ensures o.category.id != "" ==> StoresTextOrBreaks(Row(o, docs).categoryId, o.category.id)
                                    && StoresText(Row(o, docs).categoryName, o.category.name)
  {
    EscapedTextStores(CategoryUsed(o).name);
    RawTextColumn(CategoryUsed(o).id);
    if o.category.id == "" {
      assert Escaped("") == "";
    }
  }

  /** Each SafeString column is NULL exactly for "" and "[]", and otherwise holds its field exactly, quotes included. */
  lemma EscapedColumns(o: PPOBOrder, docs: Documents)
    ensures StoresText(Row(o, docs).customerName, o.customer.name)
    ensures StoresText(Row(o, docs).customerType, o.customer.customerType)
    ensures StoresText(Row(o, docs).paymentChannel, o.payment.channel)
    ensures StoresText(Row(o, docs).paymentCode, o.payment.paymentCode)
    ensures StoresText(Row(o, docs).paymentGateway, o.payment.paymentGateway)
    ensures StoresText(Row(o, docs).aggregatorName, Json.StringAt(o.metadata, ["aggregator", "name"]))
  {
    EscapedTextStores(o.customer.name);
    EscapedTextStores(o.customer.customerType);
    EscapedTextStores(o.payment.channel);
    EscapedTextStores(o.payment.paymentCode);
    EscapedTextStores(o.payment.paymentGateway);
    EscapedTextStores(ExtractAggregatorMetadata(o.metadata).1);
  }

  /** The other text columns are NullIfEmpty of their field, unescaped. */
  lemma RawColumns(o: PPOBOrder, docs: Documents)
    ensures StoresTextOrBreaks(Row(o, docs).id, o.id)
    ensures StoresTextOrBreaks(Row(o, docs).referenceId, o.referenceId)
    ensures StoresTextOrBreaks(Row(o, docs).customerId, o.customer.id)
    ensures StoresTextOrBreaks(Row(o, docs).customerPhone, o.customer.phone)
    ensures StoresTextOrBreaks(Row(o, docs).paymentReference, o.payment.referenceId)
    ensures StoresTextOrBreaks(Row(o, docs).paymentStatus, o.paymentStatus)
    ensures StoresTextOrBreaks(Row(o, docs).orderStatus, o.orderStatus)
    ensures StoresTextOrBreaks(Row(o, docs).source, o.source)
    ensures StoresTextOrBreaks(Row(o, docs).expiredAt, o.expiredAt)
    ensures StoresTextOrBreaks(Row(o, docs).createdAt, o.createdAt)
    ensures StoresTextOrBreaks(Row(o, docs).updatedAt, o.updatedAt)
    ensures StoresTextOrBreaks(Row(o, docs).aggregatorId, Json.StringAt(o.metadata, ["aggregator", "id"]))
    ensures StoresTextOrBreaks(Row(o, docs).aggregatorPhone, Json.StringAt(o.metadata, ["aggregator", "contact"]))
  {
    RawTextColumn(o.id);
    RawTextColumn(o.referenceId);
    RawTextColumn(o.customer.id);
    RawTextColumn(o.customer.phone);
    RawTextColumn(o.payment.referenceId);
    RawTextColumn(o.paymentStatus);
    RawTextColumn(o.orderStatus);
    RawTextColumn(o.source);
    RawTextColumn(o.expiredAt);
    RawTextColumn(o.createdAt);
    RawTextColumn(o.updatedAt);
    RawTextColumn(ExtractAggregatorMetadata(o.metadata).0);
    RawTextColumn(ExtractAggregatorMetadata(o.metadata).2);
  }

  /** The amount columns are `%v` of their ints: decimal literals, 0 included, never NULL. */
  lemma AmountColumns(o: PPOBOrder, docs: Documents)
    ensures StoresInt(Row(o, docs).amount, o.amount)
    ensures StoresInt(Row(o, docs).commissionJatis, o.commissionFee.jatis)
    ensures StoresInt(Row(o, docs).commissionBiller, o.commissionFee.biller)
    ensures StoresInt(Row(o, docs).commissionAggregator, o.commissionFee.aggregator)
    ensures StoresInt(Row(o, docs).serviceFee, o.serviceFee)
    ensures StoresInt(Row(o, docs).paymentFee, o.paymentFee)
    ensures StoresInt(Row(o, docs).totalTax, o.totalTax)
    ensures StoresInt(Row(o, docs).totalFee, o.totalFee)
    ensures StoresInt(Row(o, docs).total, o.total)
    ensures o.serviceFee == 0 ==> Row(o, docs).serviceFee == "0"
  {
    IntStores(o.amount);
    IntStores(o.commissionFee.jatis);
    IntStores(o.commissionFee.biller);
    IntStores(o.commissionFee.aggregator);
    IntStores(o.serviceFee);
    IntStores(o.paymentFee);
    IntStores(o.totalTax);
    IntStores(o.totalFee);
    IntStores(o.total);
  }

  /** The JSON columns are always escape string constants of their documents; metadata_source is the raw request text. */
  lemma JsonColumns(o: PPOBOrder, docs: Documents)
    ensures StoresJson(Row(o, docs).paymentMetadata, docs.paymentMetadata)
    ensures StoresJson(Row(o, docs).metadata, docs.metadata)
    ensures StoresJson(Row(o, docs).details, docs.details)
    ensures StoresJson(Row(o, docs).history, docs.history)
    ensures StoresJson(Row(o, docs).metadataSource, o.metadataRaw)
    ensures Row(o, docs).paymentMetadata[..2] == "E'" && Row(o, docs).metadata[..2] == "E'"
    ensures Row(o, docs).details[..2] == "E'" && Row(o, docs).history[..2] == "E'"
    ensures Row(o, docs).metadataSource[..2] == "E'"
  {
    JsonStores(docs.paymentMetadata);
    JsonStores(docs.metadata);
    JsonStores(docs.details);
    JsonStores(docs.history);
    JsonStores(o.metadataRaw);
  }
}
