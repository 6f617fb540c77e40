/** The cart handlers. Each reads the caller's cart (if any), changes its list of
    lines and saves it, which validates the lines and recomputes the total. */
module CartController {
  import opened Common
  import opened Text
  import opened Js
  import opened ProductModel
  import opened CartModel
  import opened Store

  /** The caller's cart, or an empty one with total 0 when there is none
      (`getCart`, and the cart `addToCart` starts from). */
  function CartOf(carts: map<Id, Cart>, user: Id): (c: Cart)
    ensures user !in carts ==> c.items == [] && c.total == 0
    ensures user in carts ==> c == carts[user]
  {
    if user in carts then carts[user] else NewCart
  }

  // ------------------------------------------------------------- addToCart

  /** The line update of `addToCart`: the quantity of an existing line for the
      product is replaced, otherwise a line is appended. */
  function SetLine(items: seq<CartItem>, product: Id, quantity: int): seq<CartItem>
  {
    match FirstIndex(items, (it: CartItem) => it.product == product)
    case Some(k) => items[k := items[k].(quantity := quantity)]
    case None => items + [CartItem(product, quantity)]
  }

  /** `addToCart` sets the quantity, it does not add to it: the first line for
      the product is overwritten in its place, and only a product without a line
      gets a new one, at the end. Every other line is as it was and in the same
      place, and a list without repeated products and with valid lines keeps
      both. */
  lemma SetLineSpec(items: seq<CartItem>, product: Id, quantity: int)
    ensures var r := SetLine(items, product, quantity);
      (|r| == |items| || |r| == |items| + 1)
      && ((exists k :: 0 <= k < |items| && items[k].product == product) <==> |r| == |items|)
      && ((forall j :: 0 <= j < |items| ==> items[j].product != product) ==> r == items + [CartItem(product, quantity)])
      && (forall k :: 0 <= k < |items| && items[k].product == product
                      && (forall j :: 0 <= j < k ==> items[j].product != product) ==>
            r == items[k := CartItem(product, quantity)])
      && (exists k :: 0 <= k < |r| && r[k] == CartItem(product, quantity))
      && (forall j :: 0 <= j < |items| && items[j].product != product ==> r[j] == items[j])
      && (UniqueProducts(items) ==>
            UniqueProducts(r) && forall j :: 0 <= j < |r| && r[j].product == product ==> r[j].quantity == quantity)
      && (ItemsValid(items) && product != "" && quantity >= 1 ==> ItemsValid(r))
  {
    var r := SetLine(items, product, quantity);
    match FirstIndex(items, (it: CartItem) => it.product == product)
    case Some(k) =>
      assert r[k] == CartItem(product, quantity);
    case None =>
      assert r[|items|] == CartItem(product, quantity);
  }

  function StockMessage(stock: int): string
  {
    "Only " + IntToString(stock) + " items available in stock"
  }

  /** `Number(quantity) || 1`: a missing, zero or non-numeric quantity becomes 1,
      any other number is taken as it is. */
  lemma AddQuantityDefaults(n: int)
    ensures NumberOr(None, 1) == 1
    ensures NumberOr(Some(JNum(0)), 1) == 1
    ensures NumberOr(Some(JStr("one")), 1) == 1
    ensures n != 0 ==> NumberOr(Some(JNum(n)), 1) == n
  {
    WordIsNaN("one");
  }

  /** Text that `Number` reads as a non-zero n, such as the decimal text of n,
      is taken as n. */
  lemma AddQuantityText(t: string, n: int)
    requires n != 0 && StringToNumber(t) == Finite(n)
    ensures NumberOr(Some(JStr(t)), 1) == n
  {
    NumberOfString(t);
  }

  /** `addToCart`. `productId` is the route parameter and `quantity` the body's
      property. Every rejection before the save leaves the carts as they were;
      a failing save is reported as a 500 with the save's message. */
  method AddToCart(db: Database, user: Id, productId: Id, quantity: Option<Json>) returns (r: Response<Cart>)
    modifies db
    ensures db.products == old(db.products) && db.orders == old(db.orders) && db.users == old(db.users)
    ensures r.Fail? ==> db.carts == old(db.carts)
    ensures var q := NumberOr(quantity, 1);
      if productId == "" then r == Fail(400, "Product ID is required")
      else if q < 1 then r == Fail(400, "Quantity must be at least 1")
      else if productId !in old(db.products) then r == Fail(404, "Product not found")
      else if old(db.products)[productId].stock < q then r == Fail(400, StockMessage(old(db.products)[productId].stock))
      else match SaveCart(SetLine(CartOf(old(db.carts), user).items, productId, q), old(db.products))
        case Rejected(m) => r == Fail(500, "Cart operation failed: " + m)
        case Saved(c) => r == Ok(200, c) && db.carts == old(db.carts)[user := c]
  {
    var q := NumberOr(quantity, 1);
    if productId == "" {
      return Fail(400, "Product ID is required");
    }
    if q < 1 {
      return Fail(400, "Quantity must be at least 1");
    }
    if productId !in db.products {
      return Fail(404, "Product not found");
    }
    var product := db.products[productId];
    if product.stock < q {
      return Fail(400, StockMessage(product.stock));
    }
    var cart := if user in db.carts then db.carts[user] else NewCart;
    var items := cart.items;
    var existing := FirstIndex(items, (it: CartItem) => it.product == productId);
    if existing.Some? {
      items := items[existing.value := items[existing.value].(quantity := q)];
    } else {
      items := items + [CartItem(productId, q)];
    }
    match SaveCart(items, db.products) {
      case Rejected(m) => return Fail(500, "Cart operation failed: " + m);
      case Saved(c) =>
        db.carts := db.carts[user := c];
        return Ok(200, c);
    }
  }

  /** What a successful `addToCart` leaves: the product's line carries the
      requested quantity, the other lines are kept, and the total is the sum over
      the lines at current prices; no product is listed twice if none was. The
      list keeps its length exactly when the product already had a line, which
      is then overwritten in place; otherwise the new line is appended. */
  lemma AddToCartOutcome(carts: map<Id, Cart>, products: map<Id, Product>, user: Id, productId: Id, q: int)
    requires productId != "" && q >= 1
    requires SaveCart(SetLine(CartOf(carts, user).items, productId, q), products).Saved?
    ensures var old_items := CartOf(carts, user).items;
      var c := SaveCart(SetLine(old_items, productId, q), products).cart;
      (exists k :: 0 <= k < |c.items| && c.items[k] == CartItem(productId, q))
      && (forall j :: 0 <= j < |old_items| && old_items[j].product != productId ==> c.items[j] == old_items[j])
      && ((exists k :: 0 <= k < |old_items| && old_items[k].product == productId) <==> |c.items| == |old_items|)
      && ((forall j :: 0 <= j < |old_items| ==> old_items[j].product != productId) ==>
            c.items == old_items + [CartItem(productId, q)])
      && (forall k :: 0 <= k < |old_items| && old_items[k].product == productId
                      && (forall j :: 0 <= j < k ==> old_items[j].product != productId) ==>
            c.items == old_items[k := CartItem(productId, q)])
      && CartTotal(c.items, products) == Some(c.total)
      && (UniqueProducts(old_items) ==> UniqueProducts(c.items))
  {
    SetLineSpec(CartOf(carts, user).items, productId, q);
  }

  // --------------------------------------------------------- updateCartItem

  const UpdateGuardMessage := "Please provide product ID and valid quantity"

  /** The guard of `updateCartItem`: a falsy product id, a falsy quantity or a
      quantity below 0. */
  predicate UpdateRejected(productId: Option<Json>, quantity: Option<Json>)
  {
    !Truthy(productId) || !Truthy(quantity) || LessThan(quantity, 0)
  }

  /** `item.product.toString() === productId`: only a string id can match. */
  function FindLine(items: seq<CartItem>, productId: Option<Json>): (r: Option<nat>)
    ensures r.Some? ==>
      productId.Some? && productId.value.JStr? && r.value < |items| && items[r.value].product == productId.value.s
    ensures r.None? && productId.Some? && productId.value.JStr? ==>
      forall j :: 0 <= j < |items| ==> items[j].product != productId.value.s
  {
    match productId
    case Some(JStr(s)) => FirstIndex(items, (it: CartItem) => it.product == s)
    case _ => None
  }

  /** The save of a line whose new quantity Mongoose cannot cast to a number. */
  function CastMessage(v: Json): string
  {
    "Cart validation failed: quantity: Cast to Number failed for value " + JsonText(v)
  }

  /** `updateCartItem`: the guard (400), no cart (404), the product not in the
      cart (404), the product gone from the catalogue (reading its stock throws,
      500), too little stock (400); otherwise only that line's quantity is
      replaced, as Mongoose casts it, and the cart is saved. */
  method UpdateCartItem(db: Database, user: Id, body: map<string, Json>) returns (r: Response<Cart>)
    modifies db
    ensures db.products == old(db.products) && db.orders == old(db.orders) && db.users == old(db.users)
    ensures r.Fail? ==> db.carts == old(db.carts)
    ensures var pid := Get(body, "productId");
      var q := Get(body, "quantity");
      if UpdateRejected(pid, q) then r == Fail(400, UpdateGuardMessage)
      else if user !in old(db.carts) then r == Fail(404, "Cart not found")
      else
        var items := old(db.carts)[user].items;
        match FindLine(items, pid)
        case None => r == Fail(404, "Item not found in cart")
        case Some(k) =>
          if items[k].product !in old(db.products) then r == Fail(500, "Cannot read properties of null (reading 'stock')")
          else if GreaterThan(q, old(db.products)[items[k].product].stock) then r == Fail(400, "Not enough stock available")
          else match MongooseNumber(q.value)
            case None => r == Fail(500, CastMessage(q.value))
            case Some(n) =>
              match SaveCart(items[k := items[k].(quantity := n)], old(db.products))
              case Rejected(m) => r == Fail(500, m)
              case Saved(c) => r == Ok(200, c) && db.carts == old(db.carts)[user := c]
  {
    var pid := Get(body, "productId");
    var q := Get(body, "quantity");
    if !Truthy(pid) || !Truthy(q) || LessThan(q, 0) {
      return Fail(400, UpdateGuardMessage);
    }
    if user !in db.carts {
      return Fail(404, "Cart not found");
    }
    var items := db.carts[user].items;
    var index := FindLine(items, pid);
    if index.None? {
      return Fail(404, "Item not found in cart");
    }
    var k := index.value;
    if q == Some(JNum(0)) {
      // the removal branch: the guard has already refused a quantity of 0
      assert false;
    }
    if items[k].product !in db.products {
      return Fail(500, "Cannot read properties of null (reading 'stock')");
    }
    var product := db.products[items[k].product];
    if GreaterThan(q, product.stock) {
      return Fail(400, "Not enough stock available");
    }
    var n := MongooseNumber(q.value);
    if n.None? {
      return Fail(500, CastMessage(q.value));
    }
    items := items[k := items[k].(quantity := n.value)];
    match SaveCart(items, db.products) {
      case Rejected(m) => return Fail(500, m);
      case Saved(c) =>
        db.carts := db.carts[user := c];
        return Ok(200, c);
    }
  }

  /** A numeric quantity that passes the guard is at least 1, and an update that
      succeeds changes only the quantity of the one line, keeping every line's
      product and every other line's quantity. */
  lemma UpdateTouchesOneLine(items: seq<CartItem>, k: nat, n: int, products: map<Id, Product>, v: int)
    requires k < |items|
    requires SaveCart(items[k := items[k].(quantity := n)], products).Saved?
    ensures var c := SaveCart(items[k := items[k].(quantity := n)], products).cart;
      |c.items| == |items| && c.items[k] == CartItem(items[k].product, n)
      && forall j :: 0 <= j < |items| && j != k ==> c.items[j] == items[j]
    ensures !UpdateRejected(Some(JStr("p")), Some(JNum(v))) ==> v >= 1
  {
  }

  /** The removal branch of `updateCartItem` cannot run: a quantity of 0 is falsy,
      so the guard has already answered 400. */
  lemma ZeroNeverReachesSplice(productId: Option<Json>)
    ensures UpdateRejected(productId, Some(JNum(0)))
  {
  }

  /** The guard as the removal branch needs it: only a missing quantity or one
      below 0 is refused. */
  predicate IntendedUpdateRejected(productId: Option<Json>, quantity: Option<Json>)
  {
    !Truthy(productId) || quantity.None? || quantity == Some(JNull) || LessThan(quantity, 0)
  }

  /** The intended line update: 0 removes the line, any other quantity replaces
      the line's quantity. */
  function IntendedLineUpdate(items: seq<CartItem>, k: nat, n: int): seq<CartItem>
    requires k < |items|
  {
    if n == 0 then items[..k] + items[k + 1..] else items[k := items[k].(quantity := n)]
  }

  /** With the intended guard a quantity of 0 gets through, and the update then
      removes the product from a cart that lists it once, keeping the other lines
      in order. */
  lemma IntendedZeroRemoves(items: seq<CartItem>, k: nat, pid: Id)
    requires k < |items| && UniqueProducts(items) && items[k].product == pid && pid != ""
    ensures !IntendedUpdateRejected(Some(JStr(pid)), Some(JNum(0)))
    ensures var r := IntendedLineUpdate(items, k, 0);
      |r| == |items| - 1
      && (forall j :: 0 <= j < |r| ==> r[j].product != pid)
      && (forall j :: 0 <= j < |r| ==> r[j] == (if j < k then items[j] else items[j + 1]))
  {
    var r := IntendedLineUpdate(items, k, 0);
    forall j | 0 <= j < |r| ensures r[j].product != pid {
      if j < k {
        assert r[j] == items[j];
      } else {
        assert r[j] == items[j + 1];
      }
    }
  }

  // --------------------------------------------------------- removeFromCart

  /** The lines that remain after removing a product. */
  function WithoutProduct(items: seq<CartItem>, productId: Id): seq<CartItem>
  {
    Filter(items, (it: CartItem) => it.product != productId)
  }

  /** Removal drops every line for the product and no other line, keeping the
      order; removing a product that is not in the cart changes nothing. */
  lemma WithoutProductSpec(items: seq<CartItem>, productId: Id, a: seq<CartItem>, b: seq<CartItem>)
    ensures forall it :: it in WithoutProduct(items, productId) <==> it in items && it.product != productId
    ensures WithoutProduct(a + b, productId) == WithoutProduct(a, productId) + WithoutProduct(b, productId)
    ensures (forall j :: 0 <= j < |items| ==> items[j].product != productId) ==> WithoutProduct(items, productId) == items
    ensures ItemsValid(items) ==> ItemsValid(WithoutProduct(items, productId))
  {
    var p := (it: CartItem) => it.product != productId;
    FilterAppend(a, b, p);
    if forall j :: 0 <= j < |items| ==> items[j].product != productId {
      FilterKeepsAll(items, p);
    }
    var r := WithoutProduct(items, productId);
    if ItemsValid(items) {
      forall j | 0 <= j < |r| ensures ItemValid(r[j]) {
        assert r[j] in r;
        var i :| 0 <= i < |items| && items[i] == r[j];
      }
    }
  }

  /** `removeFromCart`: 404 without a cart; otherwise the filtered lines are
      saved, whether or not the product was in the cart. */
  method RemoveFromCart(db: Database, user: Id, productId: Id) returns (r: Response<Cart>)
    modifies db
    ensures db.products == old(db.products) && db.orders == old(db.orders) && db.users == old(db.users)
    ensures r.Fail? ==> db.carts == old(db.carts)
    ensures user !in old(db.carts) ==> r == Fail(404, "Cart not found")
    ensures user in old(db.carts) ==>
      match SaveCart(WithoutProduct(old(db.carts)[user].items, productId), old(db.products))
      case Rejected(m) => r == Fail(500, m)
      case Saved(c) => r == Ok(200, c) && db.carts == old(db.carts)[user := c]
  {
    if user !in db.carts {
      return Fail(404, "Cart not found");
    }
    var items := Filter(db.carts[user].items, (it: CartItem) => it.product != productId);
    match SaveCart(items, db.products) {
      case Rejected(m) => return Fail(500, m);
      case Saved(c) =>
        db.carts := db.carts[user := c];
        return Ok(200, c);
    }
  }

  // -------------------------------------------------------------- clearCart

  /** `clearCart`: 404 without a cart; otherwise the cart is kept with no lines
      and total 0. */
  method ClearCart(db: Database, user: Id) returns (r: Response<Cart>)
    modifies db
    ensures db.products == old(db.products) && db.orders == old(db.orders) && db.users == old(db.users)
    ensures user !in old(db.carts) ==> r == Fail(404, "Cart not found") && db.carts == old(db.carts)
    ensures user in old(db.carts) ==> r == Ok(200, Cart([], 0)) && db.carts == old(db.carts)[user := Cart([], 0)]
  {
    if user !in db.carts {
      return Fail(404, "Cart not found");
    }
    match SaveCart([], db.products) {
      case Rejected(m) =>
        assert false;
        return Fail(500, m);
      case Saved(c) =>
        db.carts := db.carts[user := c];
        return Ok(200, c);
    }
  }
}
