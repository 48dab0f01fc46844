/**
 * The Go field names the two order schemas can report as `required`, and
 * the fact that, once lower-cased and followed by " required", none of
 * them can be mistaken by ErrorHttpStatus for a key other than "required".
 * One lemma per name keeps each literal computation small.
 */
module FieldNames {
  import opened Text
  import opened HttpStatus

  /** Every field name a `required` tag of internal/handler/model sits on, in a struct the validator reaches. */
  const ReportedFields: set<string> :=
    {"Id", "ReferenceId", "Name", "Type", "Channel", "PaymentCode", "PaymentGateway", "Amount", "Method", "ItemQty"}

  lemma ReportedFieldClassifies(f: string)
    requires f in ReportedFields
    ensures LacksOtherKeys(ToLower(f))
  {
    if f == "Id" { IdName(); }
    else if f == "ReferenceId" { ReferenceIdName(); }
    else if f == "Name" { NameName(); }
    else if f == "Type" { TypeName(); }
    else if f == "Channel" { ChannelName(); }
    else if f == "PaymentCode" { PaymentCodeName(); }
    else if f == "PaymentGateway" { PaymentGatewayName(); }
    else if f == "Amount" { AmountName(); }
    else if f == "Method" { MethodName(); }
    else { ItemQtyName(); }
  }

  lemma IdName() ensures LacksOtherKeys(ToLower("Id")) { assert ToLower("Id") == "id"; }
  lemma ReferenceIdName() ensures LacksOtherKeys(ToLower("ReferenceId")) { assert ToLower("ReferenceId") == "referenceid"; }
  lemma NameName() ensures LacksOtherKeys(ToLower("Name")) { assert ToLower("Name") == "name"; }
  lemma TypeName() ensures LacksOtherKeys(ToLower("Type")) { assert ToLower("Type") == "type"; }
  lemma ChannelName() ensures LacksOtherKeys(ToLower("Channel")) { assert ToLower("Channel") == "channel"; }
  lemma PaymentCodeName() ensures LacksOtherKeys(ToLower("PaymentCode")) { assert ToLower("PaymentCode") == "paymentcode"; }
  lemma PaymentGatewayName() ensures LacksOtherKeys(ToLower("PaymentGateway")) { assert ToLower("PaymentGateway") == "paymentgateway"; }
  lemma AmountName() ensures LacksOtherKeys(ToLower("Amount")) { assert ToLower("Amount") == "amount"; }
  lemma MethodName() ensures LacksOtherKeys(ToLower("Method")) { assert ToLower("Method") == "method"; }
  lemma ItemQtyName() ensures LacksOtherKeys(ToLower("ItemQty")) { assert ToLower("ItemQty") == "itemqty"; }
}
