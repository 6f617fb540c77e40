/** `orderValidationSchema`: the shape a checkout request body must have, and
    the lines, address and payment details read from a body that has it. */
module OrderValidation {
  import opened Common
  import opened Js
  import opened Joi
  import opened OrderModel

  const ItemKeys: set<string> := {"product", "quantity"}
  const AddressKeys: set<string> := {"street", "city", "state", "pinCode", "phone"}
  const PaymentKeys: set<string> := {"id", "status", "type"}
  const OrderKeys: set<string> := {"items", "shippingAddress", "paymentInfo"}

  /** One element of `items`: a product id string and a quantity of at least 1. */
  predicate ItemOk(v: Json)
  {
    v.JObj? && OnlyKeys(v.fields, ItemKeys)
    && "product" in v.fields && IsString(v.fields["product"])
    && "quantity" in v.fields && NumberAtLeast(v.fields["quantity"], 1)
  }

  predicate ItemsOk(v: Json)
  {
    v.JArr? && forall i :: 0 <= i < |v.elems| ==> ItemOk(v.elems[i])
  }

  predicate AddressOk(v: Json)
  {
    v.JObj? && OnlyKeys(v.fields, AddressKeys)
    && "street" in v.fields && IsString(v.fields["street"])
    && "city" in v.fields && IsString(v.fields["city"])
    && "state" in v.fields && IsString(v.fields["state"])
    && "pinCode" in v.fields && DigitString(v.fields["pinCode"], 6)
    && "phone" in v.fields && DigitString(v.fields["phone"], 10)
  }

  /** `paymentInfo`: an object whose three fields are optional strings. */
  predicate PaymentOk(v: Json)
  {
    v.JObj? && OnlyKeys(v.fields, PaymentKeys)
    && ("id" in v.fields ==> IsString(v.fields["id"]))
    && ("status" in v.fields ==> IsString(v.fields["status"]))
    && ("type" in v.fields ==> IsString(v.fields["type"]))
  }

  /** The whole schema: `items` and `shippingAddress` required, `paymentInfo`
      optional, nothing else. */
  predicate OrderRequestOk(body: map<string, Json>)
  {
    OnlyKeys(body, OrderKeys)
    && "items" in body && ItemsOk(body["items"])
    && "shippingAddress" in body && AddressOk(body["shippingAddress"])
    && ("paymentInfo" in body ==> PaymentOk(body["paymentInfo"]))
  }

  /** A requested line: a product id and a quantity. */
  datatype Line = Line(product: Id, quantity: int)

  function LineOf(v: Json): Line
    requires ItemOk(v)
  {
    Line(v.fields["product"].s, JoiNumber(v.fields["quantity"]).value)
  }

  /** The requested lines of a valid body, in request order. */
  function RequestLines(body: map<string, Json>): (lines: seq<Line>)
    requires OrderRequestOk(body)
    ensures |lines| == |body["items"].elems|
    ensures forall i :: 0 <= i < |lines| ==> lines[i].product != "" && lines[i].quantity >= 1
  {
    var items := body["items"].elems;
    seq(|items|, i requires 0 <= i < |items| => LineOf(items[i]))
  }

  function RequestAddress(body: map<string, Json>): (a: Address)
    requires OrderRequestOk(body)
    ensures AddressValid(a)
  {
    var f := body["shippingAddress"].fields;
    Address(f["street"].s, f["city"].s, f["state"].s, f["pinCode"].s, f["phone"].s)
  }

  function OptionalText(f: map<string, Json>, key: string): Option<string>
  {
    if key in f && f[key].JStr? then Some(f[key].s) else None
  }

  /** The payment details; a body without them gives all three unset. */
  function RequestPayment(body: map<string, Json>): PaymentInfo
    requires OrderRequestOk(body)
  {
    if "paymentInfo" in body then
      var f := body["paymentInfo"].fields;
      PaymentInfo(OptionalText(f, "id"), OptionalText(f, "status"), OptionalText(f, "type"))
    else PaymentInfo(None, None, None)
  }

  /** `items` is required, but an empty list passes; so does a body without
      `paymentInfo`, and any key outside the three is refused. */
  lemma ItemsRequiredButMayBeEmpty(address: Json, extra: string, v: Json)
    requires AddressOk(address)
    ensures OrderRequestOk(map["items" := JArr([]), "shippingAddress" := address])
    ensures !OrderRequestOk(map["shippingAddress" := address])
    ensures extra !in OrderKeys ==>
      !OrderRequestOk(map["items" := JArr([]), "shippingAddress" := address, extra := v])
  {
    var b := map["items" := JArr([]), "shippingAddress" := address, extra := v];
    if extra !in OrderKeys {
      assert extra in b.Keys;
    }
  }

  /** Every item of a valid body names a product and asks for at least one unit;
      the pin code is six digits and the phone ten. */
  lemma ValidBodyShape(body: map<string, Json>)
    requires OrderRequestOk(body)
    ensures forall l :: l in RequestLines(body) ==> l.quantity >= 1 && l.product != ""
    ensures |RequestAddress(body).pinCode| == 6 && |RequestAddress(body).phone| == 10
  {
  }

  /** A quantity below 1, or a missing product, makes the whole body invalid. */
  lemma {:induction false} BadItemRejected(body: map<string, Json>, i: nat)
    requires "items" in body && body["items"].JArr? && i < |body["items"].elems|
    requires var it := body["items"].elems[i];
      it.JObj? && ("product" !in it.fields || ("quantity" in it.fields && it.fields["quantity"] == JNum(0)))
    ensures !OrderRequestOk(body)
  {
    var it := body["items"].elems[i];
    assert !ItemOk(it);
  }
}
