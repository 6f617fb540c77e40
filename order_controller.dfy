/** The order handlers: checkout, the order queries and the status update. */
module OrderController {
  import opened Common
  import opened Js
  import opened Joi
  import opened ProductModel
  import opened OrderModel
  import opened OrderValidation
  import opened Store

  // ---------------------------------------------------------------- checkout

  /** Where the checkout loop ends: every line taken (the catalogue afterwards,
      the order lines and the total), or stopped at a line with an error. A
      stop keeps the catalogue as it then is, with the decrements already
      saved for earlier lines, and the lines taken before it. */
  datatype CheckoutRun =
    | Placed(products: map<Id, Product>, items: seq<OrderItem>, total: int)
    | Stopped(products: map<Id, Product>, taken: seq<OrderItem>, status: int, message: string)

  /** The reply when saving a product fails its validators. */
  const ProductSaveMessage := "Product validation failed"

  /** One pass of the loop body: read the product, check its stock, snapshot the
      line and save the decremented product. */
  datatype LineStep = Taken(product: Product, item: OrderItem) | Refused(status: int, message: string)

  function TakeLine(products: map<Id, Product>, line: Line): LineStep
  {
    if line.product !in products then Refused(404, "Product not found: " + line.product)
    else
      var p := products[line.product];
      if p.stock < line.quantity then Refused(400, "Insufficient stock for " + p.name)
      else match Save(p.(stock := p.stock - line.quantity), false)
        case None => Refused(500, ProductSaveMessage)
        case Some(q) => Taken(q, OrderItem(line.product, p.name, line.quantity, p.price))
  }

  /** Prefix the lines taken so far (and their amount) to the rest of a run. */
  function Resume(items: seq<OrderItem>, total: int, c: CheckoutRun): CheckoutRun
  {
    match c
    case Placed(ps, its, t) => Placed(ps, items + its, total + t)
    case Stopped(ps, tk, s, m) => Stopped(ps, items + tk, s, m)
  }

  /** The checkout loop over the requested lines, in request order. */
  function Checkout(products: map<Id, Product>, lines: seq<Line>): CheckoutRun
    decreases |lines|
  {
    if lines == [] then Placed(products, [], 0)
    else match TakeLine(products, lines[0])
      case Refused(s, m) => Stopped(products, [], s, m)
      case Taken(q, item) =>
        Resume([item], item.price * item.quantity, Checkout(products[lines[0].product := q], lines[1..]))
  }

  lemma ResumeNothing(c: CheckoutRun)
    ensures Resume([], 0, c) == c
  {
    match c
    case Placed(ps, its, t) => assert [] + its == its;
    case Stopped(ps, tk, s, m) => assert [] + tk == tk;
  }

  lemma ResumeTwice(a: seq<OrderItem>, x: int, b: seq<OrderItem>, y: int, c: CheckoutRun)
    ensures Resume(a, x, Resume(b, y, c)) == Resume(a + b, x + y, c)
  {
    match c
    case Placed(ps, its, t) => assert a + (b + its) == (a + b) + its;
    case Stopped(ps, tk, s, m) => assert a + (b + tk) == (a + b) + tk;
  }

  /** A saved line only lowers the stock of its product: the save hook leaves
      a document whose reviews did not change as it is. */
  lemma TakeLineShape(products: map<Id, Product>, line: Line)
    requires TakeLine(products, line).Taken?
    ensures var p := products[line.product];
      line.product in products && p.stock >= line.quantity
      && TakeLine(products, line).product == p.(stock := p.stock - line.quantity)
      && TakeLine(products, line).product.stock >= 0
      && TakeLine(products, line).item == OrderItem(line.product, p.name, line.quantity, p.price)
  {
  }

  /** Σ quantity over the lines that name `id`. */
  function Demand(lines: seq<Line>, id: Id): int
    decreases |lines|
  {
    if lines == [] then 0 else (if lines[0].product == id then lines[0].quantity else 0) + Demand(lines[1..], id)
  }

  /** On success every product's stock has dropped by exactly the quantity
      requested of it, nothing else about any product changed, and a product
      that was requested ends with a stock of at least 0. A product listed twice
      is checked the second time against the already reduced stock. */
  lemma {:induction false} CheckoutStock(products: map<Id, Product>, lines: seq<Line>)
    requires Checkout(products, lines).Placed?
    ensures var ps := Checkout(products, lines).products;
      ps.Keys == products.Keys
      && (forall id :: id in products ==>
            ps[id] == products[id].(stock := products[id].stock - Demand(lines, id)))
      && (forall i :: 0 <= i < |lines| ==> lines[i].product in ps && ps[lines[i].product].stock >= 0)
    decreases |lines|
  {
    if lines != [] {
      var l := lines[0];
      TakeLineShape(products, l);
      var q := TakeLine(products, l).product;
      var next := products[l.product := q];
      CheckoutStock(next, lines[1..]);
      var ps := Checkout(next, lines[1..]).products;
      assert Checkout(products, lines).products == ps;
      forall i | 0 <= i < |lines| ensures lines[i].product in ps && ps[lines[i].product].stock >= 0 {
        if i > 0 {
          assert lines[i] == lines[1..][i - 1];
        } else if Demand(lines[1..], l.product) != 0 {
          DemandPositive(lines[1..], l.product);
        }
      }
    }
  }

  /** A product with positive demand is named by one of the lines. */
  lemma {:induction false} DemandPositive(lines: seq<Line>, id: Id)
    requires Demand(lines, id) != 0
    ensures exists i :: 0 <= i < |lines| && lines[i].product == id
    decreases |lines|
  {
    if lines[0].product != id {
      DemandPositive(lines[1..], id);
      var i :| 0 <= i < |lines[1..]| && lines[1..][i].product == id;
      assert lines[i + 1].product == id;
    }
  }

  /** On success the order lines follow the request, one per requested line, each
      recording the product, its name and its price at checkout and the requested
      quantity; the total is Σ price × quantity over them. */
  lemma {:induction false} CheckoutItems(products: map<Id, Product>, lines: seq<Line>)
    requires Checkout(products, lines).Placed?
    ensures var c := Checkout(products, lines);
      |c.items| == |lines|
      && (forall i :: 0 <= i < |lines| ==>
            lines[i].product in products
            && c.items[i] == OrderItem(lines[i].product, products[lines[i].product].name,
                                       lines[i].quantity, products[lines[i].product].price))
      && c.total == ItemsTotal(c.items)
    decreases |lines|
  {
    if lines != [] {
      var l := lines[0];
      TakeLineShape(products, l);
      var t := TakeLine(products, l);
      var next := products[l.product := t.product];
      CheckoutItems(next, lines[1..]);
      var rest := Checkout(next, lines[1..]);
      var c := Checkout(products, lines);
      assert c.items == [t.item] + rest.items;
      forall i | 0 <= i < |lines|
        ensures lines[i].product in products
        ensures c.items[i] == OrderItem(lines[i].product, products[lines[i].product].name,
                                        lines[i].quantity, products[lines[i].product].price)
      {
        if i > 0 {
          assert lines[i] == lines[1..][i - 1];
          assert c.items[i] == rest.items[i - 1];
        }
      }
      ItemsTotalAppend([t.item], rest.items);
      assert ItemsTotal([t.item]) == t.item.price * t.item.quantity by {
        assert [t.item][..0] == [];
      }
    }
  }

  /** When checkout stops, the catalogue keeps its products and every product
      has lost at most stock; the stored catalogue still lacks exactly the stock
      of the lines taken before the stop, since giving those back is what would
      restore the one the checkout started from. */
  lemma {:induction false} CheckoutStoppedKeepsDecrements(products: map<Id, Product>, lines: seq<Line>)
    requires forall i :: 0 <= i < |lines| ==> lines[i].quantity >= 1
    requires Checkout(products, lines).Stopped?
    ensures var ps := Checkout(products, lines).products;
      ps.Keys == products.Keys
      && (forall id :: id in products ==>
           ps[id] == products[id].(stock := ps[id].stock) && ps[id].stock <= products[id].stock)
      && Release(ps, Checkout(products, lines).taken) == products
    decreases |lines|
  {
    ReleaseRestores(products, lines);
    if lines != [] && TakeLine(products, lines[0]).Taken? {
      var l := lines[0];
      TakeLineShape(products, l);
      var next := products[l.product := TakeLine(products, l).product];
      assert forall i :: 0 <= i < |lines[1..]| ==> lines[1..][i] == lines[i + 1];
      CheckoutStoppedKeepsDecrements(next, lines[1..]);
    }
  }

  /** The missing rollback, on a concrete run: two units of a product in stock
      and then an unknown product. The reply is 404, but the first product's
      stock stays reduced from 5 to 3. */
  lemma NoRollbackExample(pa: Product)
    requires ProductValid(pa) && pa.stock == 5
    ensures var c := Checkout(map["a" := pa], [Line("a", 2), Line("b", 1)]);
      c.Stopped? && c.status == 404 && c.products == map["a" := pa.(stock := 3)]
  {
    var lines := [Line("a", 2), Line("b", 1)];
    var next := map["a" := pa][ "a" := pa.(stock := 3)];
    assert lines[1..] == [Line("b", 1)];
    assert Checkout(next, [Line("b", 1)]) == Stopped(next, [], 404, "Product not found: b");
    assert next == map["a" := pa.(stock := 3)];
  }

  /** Giving back the stock of the taken lines, the last one first. */
  function Release(products: map<Id, Product>, taken: seq<OrderItem>): map<Id, Product>
    decreases |taken|
  {
    if taken == [] then products
    else
      var rest := Release(products, taken[1..]);
      var id := taken[0].product;
      if id in rest then rest[id := rest[id].(stock := rest[id].stock + taken[0].quantity)] else rest
  }

  /** Checkout with the compensation the source lacks: a stop gives back the
      stock of every line already taken. */
  function CheckoutWithRelease(products: map<Id, Product>, lines: seq<Line>): CheckoutRun
  {
    match Checkout(products, lines)
    case Stopped(ps, tk, s, m) => Stopped(Release(ps, tk), [], s, m)
    case placed => placed
  }

  lemma {:induction false} ReleaseRestores(products: map<Id, Product>, lines: seq<Line>)
    requires Checkout(products, lines).Stopped?
    ensures Release(Checkout(products, lines).products, Checkout(products, lines).taken) == products
    decreases |lines|
  {
    if TakeLine(products, lines[0]).Taken? {
      var l := lines[0];
      TakeLineShape(products, l);
      var t := TakeLine(products, l);
      var next := products[l.product := t.product];
      ReleaseRestores(next, lines[1..]);
      var rest := Checkout(next, lines[1..]);
      assert Checkout(products, lines).taken == [t.item] + rest.taken;
      assert ([t.item] + rest.taken)[1..] == rest.taken;
      assert products[l.product := products[l.product]] == products;
    }
  }

  /** With the compensation, a stopped checkout leaves the catalogue exactly as
      it found it, and a successful one is unchanged. */
  lemma CheckoutWithReleaseAtomic(products: map<Id, Product>, lines: seq<Line>)
    ensures CheckoutWithRelease(products, lines).Stopped? ==> CheckoutWithRelease(products, lines).products == products
    ensures Checkout(products, lines).Placed? ==> CheckoutWithRelease(products, lines) == Checkout(products, lines)
    ensures CheckoutWithRelease(products, lines).Stopped? <==> Checkout(products, lines).Stopped?
  {
    if Checkout(products, lines).Stopped? {
      ReleaseRestores(products, lines);
    }
  }

  /** One step of the checkout run, as the loop takes it. */
  lemma CheckoutStep(products: map<Id, Product>, lines: seq<Line>, i: int)
    requires 0 <= i < |lines|
    ensures TakeLine(products, lines[i]).Refused? ==>
      Checkout(products, lines[i..]) ==
        Stopped(products, [], TakeLine(products, lines[i]).status, TakeLine(products, lines[i]).message)
    ensures TakeLine(products, lines[i]).Taken? ==>
      var t := TakeLine(products, lines[i]);
      Checkout(products, lines[i..]) ==
        Resume([t.item], t.item.price * t.item.quantity, Checkout(products[lines[i].product := t.product], lines[i + 1..]))
  {
    assert lines[i..][0] == lines[i] && lines[i..][1..] == lines[i + 1..];
  }

  /** A refused line ends the run with the lines taken before it. */
  lemma StopAt(start: map<Id, Product>, products: map<Id, Product>, lines: seq<Line>, i: int,
               items: seq<OrderItem>, total: int)
    requires 0 <= i < |lines|
    requires Checkout(start, lines) == Resume(items, total, Checkout(products, lines[i..]))
    requires TakeLine(products, lines[i]).Refused?
    ensures Checkout(start, lines) ==
      Stopped(products, items, TakeLine(products, lines[i]).status, TakeLine(products, lines[i]).message)
  {
    CheckoutStep(products, lines, i);
    assert items + [] == items;
  }

  /** A taken line moves one step further along the run. */
  lemma TakeAt(start: map<Id, Product>, products: map<Id, Product>, lines: seq<Line>, i: int,
               items: seq<OrderItem>, total: int)
    requires 0 <= i < |lines|
    requires Checkout(start, lines) == Resume(items, total, Checkout(products, lines[i..]))
    requires TakeLine(products, lines[i]).Taken?
    ensures var t := TakeLine(products, lines[i]);
      Checkout(start, lines) ==
        Resume(items + [t.item], total + t.item.price * t.item.quantity,
               Checkout(products[lines[i].product := t.product], lines[i + 1..]))
  {
    var t := TakeLine(products, lines[i]);
    CheckoutStep(products, lines, i);
    ResumeTwice(items, total, [t.item], t.item.price * t.item.quantity,
                Checkout(products[lines[i].product := t.product], lines[i + 1..]));
  }

  /** The loop of `createOrder`: each line's product is read, its stock checked
      and the product saved with the stock reduced, one line after the other;
      the first failing line ends the loop with its reply. */
  method TakeLines(db: Database, lines: seq<Line>)
    returns (ok: bool, items: seq<OrderItem>, total: int, status: int, message: string)
    modifies db
    ensures db.carts == old(db.carts) && db.orders == old(db.orders) && db.users == old(db.users)
    ensures db.products == Checkout(old(db.products), lines).products
    ensures ok <==> Checkout(old(db.products), lines).Placed?
    ensures ok ==> items == Checkout(old(db.products), lines).items && total == Checkout(old(db.products), lines).total
    ensures !ok ==> status == Checkout(old(db.products), lines).status && message == Checkout(old(db.products), lines).message
  {
    items, total := [], 0;
    var i := 0;
    ResumeNothing(Checkout(db.products, lines));
    assert lines[0..] == lines;
    while i < |lines|
      invariant 0 <= i <= |lines|
      invariant Checkout(old(db.products), lines) == Resume(items, total, Checkout(db.products, lines[i..]))
      invariant db.carts == old(db.carts) && db.orders == old(db.orders) && db.users == old(db.users)
    {
      var line := lines[i];
      if line.product !in db.products {
        StopAt(old(db.products), db.products, lines, i, items, total);
        return false, items, total, 404, "Product not found: " + line.product;
      }
      var product := db.products[line.product];
      if product.stock < line.quantity {
        StopAt(old(db.products), db.products, lines, i, items, total);
        return false, items, total, 400, "Insufficient stock for " + product.name;
      }
      var item := OrderItem(line.product, product.name, line.quantity, product.price);
      var saved := Save(product.(stock := product.stock - line.quantity), false);
      if saved.None? {
        StopAt(old(db.products), db.products, lines, i, items, total);
        return false, items, total, 500, ProductSaveMessage;
      }
      TakeAt(old(db.products), db.products, lines, i, items, total);
      items := items + [item];
      total := total + product.price * line.quantity;
      db.products := db.products[line.product := saved.value];
      i := i + 1;
    }
    assert lines[i..] == [];
    ResumeEnd(items, total, db.products);
    ok, status, message := true, 201, "";
  }

  lemma ResumeEnd(items: seq<OrderItem>, total: int, products: map<Id, Product>)
    ensures Resume(items, total, Checkout(products, [])) == Placed(products, items, total)
  {
    assert items + [] == items;
  }

  /** `createOrder`. `user` is the authenticated caller, `orderId` the id the
      database assigns and `now` the clock. A body the schema refuses is
      answered with 400 before any product is read. Otherwise the lines are
      processed in order, each product saved as soon as its stock is reduced;
      the first failing line ends the request and nothing done for earlier lines
      is undone. When every line passes, the order is stored with the default
      status and the caller's cart is deleted. */
  method CreateOrder(db: Database, user: Id, body: map<string, Json>, orderId: Id, now: int)
    returns (r: Response<Order>)
    requires user != ""
    modifies db
    ensures db.users == old(db.users)
    ensures !OrderRequestOk(body) ==>
      r == Fail(400, SchemaMessage) && db.products == old(db.products)
      && db.carts == old(db.carts) && db.orders == old(db.orders)
    ensures OrderRequestOk(body) ==>
      var c := Checkout(old(db.products), RequestLines(body));
      db.products == c.products
      && (c.Stopped? ==> r == Fail(c.status, c.message) && db.carts == old(db.carts) && db.orders == old(db.orders))
      && (c.Placed? ==>
            var o := NewOrder(orderId, user, c.items, RequestAddress(body), c.total, RequestPayment(body), now);
            r == Ok(201, o) && db.orders == old(db.orders) + [o] && db.carts == old(db.carts) - {user})
  {
    if !OrderRequestOk(body) {
      return Fail(400, SchemaMessage);
    }
    var ok, items, total, status, message := TakeLines(db, RequestLines(body));
    if !ok {
      return Fail(status, message);
    }
    var order := NewOrder(orderId, user, items, RequestAddress(body), total, RequestPayment(body), now);
    db.orders := db.orders + [order];
    db.carts := db.carts - {user};
    return Ok(201, order);
  }

  /** Every order checkout stores passes the order schema: its lines come from
      lines the request schema accepted. */
  lemma PlacedOrderValid(products: map<Id, Product>, body: map<string, Json>, orderId: Id, user: Id, now: int)
    requires OrderRequestOk(body) && user != ""
    requires Checkout(products, RequestLines(body)).Placed?
    ensures var c := Checkout(products, RequestLines(body));
      OrderValid(NewOrder(orderId, user, c.items, RequestAddress(body), c.total, RequestPayment(body), now))
  {
    var lines := RequestLines(body);
    CheckoutItems(products, lines);
  }

  // ----------------------------------------------------------------- queries

  /** `getSingleOrder`: the order with that id, or 404. */
  function GetSingleOrder(orders: seq<Order>, id: Id): (r: Response<Order>)
    ensures r.Ok? ==> r.status == 200 && r.body in orders && r.body.id == id
    ensures r.Fail? <==> forall k :: 0 <= k < |orders| ==> orders[k].id != id
    ensures r.Fail? ==> r == Fail(404, "Order not found")
  {
    match FirstIndex(orders, (o: Order) => o.id == id)
    case None => Fail(404, "Order not found")
    case Some(k) => Ok(200, orders[k])
  }

  /** `getMyOrders`: exactly the caller's orders, in creation order. */
  function GetMyOrders(orders: seq<Order>, user: Id): (r: seq<Order>)
    ensures forall o :: o in r <==> o in orders && o.user == user
  {
    Filter(orders, (o: Order) => o.user == user)
  }

  /** A new order extends its owner's list at the end and leaves every other
      user's list as it was, so the reply keeps creation order. */
  lemma MyOrdersAppend(orders: seq<Order>, o: Order, user: Id)
    ensures GetMyOrders(orders + [o], user) == GetMyOrders(orders, user) + (if o.user == user then [o] else [])
  {
    var p := (x: Order) => x.user == user;
    FilterAppend(orders, [o], p);
    assert [o][1..] == [];
  }

  /** Each of the caller's orders appears in the reply as often as it is
      stored, and no other order appears. */
  lemma {:induction false} MyOrdersMultiplicity(orders: seq<Order>, user: Id)
    ensures forall o :: multiset(GetMyOrders(orders, user))[o] == if o.user == user then multiset(orders)[o] else 0
    decreases |orders|
  {
    if orders != [] {
      var init := orders[..|orders| - 1];
      var last := orders[|orders| - 1];
      assert orders == init + [last];
      MyOrdersAppend(init, last, user);
      MyOrdersMultiplicity(init, user);
    }
  }

  function Reverse(s: seq<Order>): (r: seq<Order>)
    ensures |r| == |s|
    ensures forall i :: 0 <= i < |s| ==> r[i] == s[|s| - 1 - i]
  {
    if s == [] then [] else Reverse(s[1..]) + [s[0]]
  }

  function SumTotals(orders: seq<Order>): int
  {
    if orders == [] then 0 else SumTotals(orders[..|orders| - 1]) + orders[|orders| - 1].totalAmount
  }

  lemma {:induction false} SumTotalsAppend(a: seq<Order>, b: seq<Order>)
    ensures SumTotals(a + b) == SumTotals(a) + SumTotals(b)
    decreases |b|
  {
    if b == [] {
      assert a + b == a;
    } else {
      assert (a + b)[..|a + b| - 1] == a + b[..|b| - 1];
      SumTotalsAppend(a, b[..|b| - 1]);
    }
  }

  /** The sum of the totals does not depend on the order of the list. */
  lemma {:induction false} SumTotalsReverse(s: seq<Order>)
    ensures SumTotals(Reverse(s)) == SumTotals(s)
    decreases |s|
  {
    if s != [] {
      SumTotalsReverse(s[1..]);
      SumTotalsAppend(Reverse(s[1..]), [s[0]]);
      SumTotalsAppend([s[0]], s[1..]);
      assert [s[0]] + s[1..] == s;
      assert [s[0]][..0] == [];
    }
  }

  /** `getAllOrders`: all orders newest first (orders are stored in creation
      order) and the sum of their totals, folded over that list. */
  function GetAllOrders(orders: seq<Order>): (r: (seq<Order>, int))
    ensures |r.0| == |orders| && forall i :: 0 <= i < |orders| ==> r.0[i] == orders[|orders| - 1 - i]
    ensures r.1 == SumTotals(orders)
  {
    var sorted := Reverse(orders);
    SumTotalsReverse(orders);
    (sorted, SumTotals(sorted))
  }

  // ----------------------------------------------------------- status update

  const DeliveredMessage := "Order has already been delivered"

  /** The save of an order whose status is outside the enum. */
  function EnumMessage(value: Json): string
  {
    "Order validation failed: status: `" + JsonText(value) + "` is not a valid enum value for path `status`."
  }

  /** `updateOrderStatus` on a found order. A status left out of the body unsets
      the field, which reads back as the default; a value outside the enum fails
      validation on save (500). */
  function StatusUpdate(o: Order, requested: Option<Json>, now: int): (r: Response<Order>)
    ensures o.status == Downloaded ==> r == Fail(400, DeliveredMessage)
    ensures r.Ok? ==> r.status == 200 && r.body.(status := o.status, deliveredAt := o.deliveredAt) == o
    ensures r.Ok? ==>
      (requested == Some(JStr("downloaded")) ==> r.body.status == Downloaded && r.body.deliveredAt == Some(now))
      && (requested != Some(JStr("downloaded")) ==> r.body.deliveredAt == o.deliveredAt)
    ensures o.status == Pending && requested == Some(JStr("pending")) ==> r == Ok(200, o)
    ensures o.status == Pending && (requested.None? || requested == Some(JNull)) ==> r == Ok(200, o.(status := DefaultStatus))
    ensures o.status == Pending && requested.Some? && requested.value.JStr? && ParseStatus(requested.value.s).None? ==>
      r.Fail? && r.status == 500
    ensures o.status == Pending && requested == Some(JStr("downloaded")) ==>
      r == Ok(200, o.(status := Downloaded, deliveredAt := Some(now)))
    ensures o.status == Pending && requested.Some? && !requested.value.JStr? && requested.value != JNull ==>
      r == Fail(500, EnumMessage(requested.value))
  {
    if o.status == Downloaded then Fail(400, DeliveredMessage)
    else match requested
      case None => Ok(200, o.(status := DefaultStatus))
      case Some(JNull) => Ok(200, o.(status := DefaultStatus))
      case Some(JStr(s)) =>
        if s == "downloaded" then Ok(200, o.(status := Downloaded, deliveredAt := Some(now)))
        else if s == "pending" then Ok(200, o.(status := Pending))
        else Fail(500, EnumMessage(JStr(s)))
      case Some(v) => Fail(500, EnumMessage(v))
  }

  /** `downloaded` is absorbing: once an update has set it, every later update
      is refused and the order stays as it is. */
  lemma DownloadedAbsorbs(o: Order, first: Option<Json>, second: Option<Json>, t1: int, t2: int)
    requires StatusUpdate(o, first, t1).Ok? && StatusUpdate(o, first, t1).body.status == Downloaded
    ensures StatusUpdate(StatusUpdate(o, first, t1).body, second, t2) == Fail(400, DeliveredMessage)
  {
  }

  /** The status is always one of the two enum values, whatever the request. */
  lemma StatusStaysInEnum(o: Order, requested: Option<Json>, now: int)
    ensures StatusUpdate(o, requested, now).Ok? ==>
      StatusName(StatusUpdate(o, requested, now).body.status) in {"pending", "downloaded"}
  {
  }

  /** The handler: 404 for an unknown id, otherwise the update above, saved. */
  method UpdateOrderStatus(db: Database, id: Id, requested: Option<Json>, now: int) returns (r: Response<Order>)
    modifies db
    ensures db.products == old(db.products) && db.carts == old(db.carts) && db.users == old(db.users)
    ensures (forall k :: 0 <= k < |old(db.orders)| ==> old(db.orders)[k].id != id) ==>
      r == Fail(404, "Order not found") && db.orders == old(db.orders)
    ensures r.Fail? ==> db.orders == old(db.orders)
    ensures r.Ok? ==>
      (exists k :: 0 <= k < |old(db.orders)| && old(db.orders)[k].id == id
        && (forall j :: 0 <= j < k ==> old(db.orders)[j].id != id)
        && r == StatusUpdate(old(db.orders)[k], requested, now) && db.orders == old(db.orders)[k := r.body])
    ensures forall k ::
      (0 <= k < |old(db.orders)| && old(db.orders)[k].id == id && (forall j :: 0 <= j < k ==> old(db.orders)[j].id != id))
      ==> r == StatusUpdate(old(db.orders)[k], requested, now)
          && db.orders == (if r.Ok? then old(db.orders)[k := r.body] else old(db.orders))
  {
    var found := FirstIndex(db.orders, (o: Order) => o.id == id);
    if found.None? {
      return Fail(404, "Order not found");
    }
    var k := found.value;
    FirstMatchOnly(db.orders, id, k);
    var order := db.orders[k];
    if order.status == Downloaded {
      r := Fail(400, DeliveredMessage);
    } else {
      match requested {
        case None => r := Ok(200, order.(status := DefaultStatus));
        case Some(JNull) => r := Ok(200, order.(status := DefaultStatus));
        case Some(JStr(s)) =>
          if s == "downloaded" {
            r := Ok(200, order.(status := Downloaded, deliveredAt := Some(now)));
          } else if s == "pending" {
            r := Ok(200, order.(status := Pending));
          } else {
            r := Fail(500, EnumMessage(JStr(s)));
          }
        case Some(v) => r := Fail(500, EnumMessage(v));
      }
    }
    assert r == StatusUpdate(order, requested, now);
    if r.Ok? {
      db.orders := db.orders[k := r.body];
    }
  }

  /** The first order with a given id is the only one no earlier order shares it with. */
  lemma FirstMatchOnly(orders: seq<Order>, id: Id, k: nat)
    requires k < |orders| && orders[k].id == id && forall j :: 0 <= j < k ==> orders[j].id != id
    ensures forall i :: 0 <= i < |orders| && orders[i].id == id && (forall j :: 0 <= j < i ==> orders[j].id != id) ==> i == k
  {
  }

  // ---------------------------------------------------------------- findings

  /** Every order checkout creates carries the default status `downloaded`, so
      `updateOrderStatus` refuses it whatever status is asked for. */
  lemma CreatedOrdersAreFinal(orderId: Id, user: Id, items: seq<OrderItem>, address: Address, total: int,
                              payment: PaymentInfo, now: int, requested: Option<Json>, later: int)
    ensures var o := NewOrder(orderId, user, items, address, total, payment, now);
      o.status == Downloaded && StatusUpdate(o, requested, later) == Fail(400, DeliveredMessage)
  {
  }

  /** A new order as the status machine needs it: `pending` until delivered. */
  function NewPendingOrder(id: Id, user: Id, items: seq<OrderItem>, address: Address, totalAmount: int,
                           payment: PaymentInfo, now: int): (o: Order)
    ensures o.status == Pending && o.deliveredAt == None
    ensures o.(status := DefaultStatus) == NewOrder(id, user, items, address, totalAmount, payment, now)
  {
    Order(id, user, items, address, totalAmount, payment, Pending, Some(now), None)
  }

  /** A pending order can be delivered once: the update sets the status and the
      delivery time, and every update after that is refused. */
  lemma PendingOrderDeliversOnce(orderId: Id, user: Id, items: seq<OrderItem>, address: Address, total: int,
                                 payment: PaymentInfo, now: int, t: int, requested: Option<Json>, later: int)
    ensures var o := NewPendingOrder(orderId, user, items, address, total, payment, now);
      var delivered := StatusUpdate(o, Some(JStr("downloaded")), t);
      delivered == Ok(200, o.(status := Downloaded, deliveredAt := Some(t)))
      && StatusUpdate(delivered.body, requested, later) == Fail(400, DeliveredMessage)
  {
  }
}
