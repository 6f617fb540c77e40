/** The order document: the purchased lines with their price snapshots, the
    shipping address, the payment details, the status and two timestamps.
    Times are milliseconds since the epoch. */
module OrderModel {
  import opened Common

  /** The status enum. A document whose status was never set, or was unset,
      reads back as the schema default. */
  datatype Status = Pending | Downloaded

  const DefaultStatus: Status := Downloaded

  function StatusName(s: Status): string
  {
    match s
    case Pending => "pending"
    case Downloaded => "downloaded"
  }

  /** The enum validator: only the two names are accepted. */
  function ParseStatus(name: string): Option<Status>
  {
    if name == "pending" then Some(Pending)
    else if name == "downloaded" then Some(Downloaded)
    else None
  }

  /** The enum admits exactly the two status names, and a status and its name
      determine each other. */
  lemma StatusNames(s: Status, name: string)
    ensures ParseStatus(StatusName(s)) == Some(s)
    ensures ParseStatus(name).Some? <==> name == "pending" || name == "downloaded"
    ensures ParseStatus(name) == Some(s) ==> StatusName(s) == name
  {
  }

  /** One purchased line: the product, its name and price when ordered, and the
      quantity. */
  datatype OrderItem = OrderItem(product: Id, name: string, quantity: int, price: int)

  datatype Address = Address(street: string, city: string, state: string, pinCode: string, phone: string)

  /** The optional payment details; `kind` is the source's `type`. An order
      created without them has all three unset. */
  datatype PaymentInfo = PaymentInfo(id: Option<string>, status: Option<string>, kind: Option<string>)

  datatype Order = Order(
    id: Id,
    user: Id,
    items: seq<OrderItem>,
    shippingAddress: Address,
    totalAmount: int,
    paymentInfo: PaymentInfo,
    status: Status,
    paidAt: Option<int>,
    deliveredAt: Option<int>)

  /** The item validators: a product reference and a quantity of at least 1
      (the price is required and always present here). */
  predicate ItemValid(it: OrderItem) { it.product != "" && it.quantity >= 1 }

  /** The address validators: every field is a required, hence non-empty, string. */
  predicate AddressValid(a: Address)
  {
    a.street != "" && a.city != "" && a.state != "" && a.pinCode != "" && a.phone != ""
  }

  /** Everything the order schema checks on save. */
  predicate OrderValid(o: Order)
  {
    o.user != ""
    && (forall i :: 0 <= i < |o.items| ==> ItemValid(o.items[i]))
    && AddressValid(o.shippingAddress)
  }

  /** Σ price × quantity over the lines. */
  function ItemsTotal(items: seq<OrderItem>): int
  {
    if items == [] then 0 else ItemsTotal(items[..|items| - 1]) + items[|items| - 1].price * items[|items| - 1].quantity
  }

  /** The total of a concatenation is the sum of the totals. */
  lemma {:induction false} ItemsTotalAppend(a: seq<OrderItem>, b: seq<OrderItem>)
    ensures ItemsTotal(a + b) == ItemsTotal(a) + ItemsTotal(b)
    decreases |b|
  {
    if b == [] {
      assert a + b == a;
    } else {
      assert (a + b)[..|a + b| - 1] == a + b[..|b| - 1];
      ItemsTotalAppend(a, b[..|b| - 1]);
    }
  }

  /** `Order.create` as the checkout calls it: no status is given, so the order
      takes the default; it is paid now and not yet delivered. */
  function NewOrder(id: Id, user: Id, items: seq<OrderItem>, address: Address, totalAmount: int,
                    payment: PaymentInfo, now: int): Order
  {
    Order(id, user, items, address, totalAmount, payment, DefaultStatus, Some(now), None)
  }
}
