/** The cart document: one per user (the store keys carts by user), a list of
    (product, quantity) lines and a `total` that the pre-save hook recomputes
    from the current product prices on every save. */
module CartModel {
  import opened Common
  import opened ProductModel

  datatype CartItem = CartItem(product: Id, quantity: int)

  datatype Cart = Cart(items: seq<CartItem>, total: int)

  /** A new cart: no lines, and the schema default total 0. */
  const NewCart: Cart := Cart([], 0)

  /** The line validators: a product reference and a quantity of at least 1. */
  predicate ItemValid(it: CartItem) { it.product != "" && it.quantity >= 1 }

  predicate ItemsValid(items: seq<CartItem>)
  {
    forall i :: 0 <= i < |items| ==> ItemValid(items[i])
  }

  /** No product appears on two lines. */
  predicate UniqueProducts(items: seq<CartItem>)
  {
    forall i, j :: 0 <= i < j < |items| ==> items[i].product != items[j].product
  }

  /** The pre-save total, Σ price × quantity, reading each line's product. A line
      whose product no longer exists populates to null and the hook fails (None). */
  function CartTotal(items: seq<CartItem>, products: map<Id, Product>): (r: Option<int>)
    ensures r.Some? <==> forall i :: 0 <= i < |items| ==> items[i].product in products
    ensures items == [] ==> r == Some(0)
  {
    if items == [] then Some(0)
    else
      var last := items[|items| - 1];
      match CartTotal(items[..|items| - 1], products)
      case None => None
      case Some(t) =>
        if last.product in products then Some(t + products[last.product].price * last.quantity) else None
  }

  /** The total depends only on the lines and on the prices of their products:
      two catalogues that agree on those give the same total. */
  lemma {:induction false} TotalDependsOnPrices(items: seq<CartItem>, p1: map<Id, Product>, p2: map<Id, Product>)
    requires forall i :: 0 <= i < |items| ==>
      (items[i].product in p1 <==> items[i].product in p2)
      && (items[i].product in p1 ==> p1[items[i].product].price == p2[items[i].product].price)
    ensures CartTotal(items, p1) == CartTotal(items, p2)
    decreases |items|
  {
    if items != [] {
      TotalDependsOnPrices(items[..|items| - 1], p1, p2);
    }
  }

  /** Appending a line adds its price × quantity to the total. */
  lemma TotalOfAppend(items: seq<CartItem>, it: CartItem, products: map<Id, Product>)
    requires CartTotal(items, products).Some? && it.product in products
    ensures CartTotal(items + [it], products) ==
      Some(CartTotal(items, products).value + products[it.product].price * it.quantity)
  {
    assert (items + [it])[..|items|] == items;
  }

  /** What `save()` gives: the saved cart, or the error that stopped it. */
  datatype CartSave = Saved(cart: Cart) | Rejected(message: string)

  const QuantityMessage := "Quantity cannot be less than 1"
  const MissingProductMessage := "Cannot read properties of null (reading 'price')"

  /** `cart.save()`: the validators first (every quantity at least 1), then the
      hook that recomputes the total. */
  function SaveCart(items: seq<CartItem>, products: map<Id, Product>): (r: CartSave)
    ensures r.Saved? <==> ItemsValid(items) && forall i :: 0 <= i < |items| ==> items[i].product in products
    ensures r.Saved? ==> r.cart.items == items && CartTotal(items, products) == Some(r.cart.total)
  {
    if !ItemsValid(items) then Rejected(QuantityMessage)
    else match CartTotal(items, products)
      case None => Rejected(MissingProductMessage)
      case Some(t) => Saved(Cart(items, t))
  }

  /** Saving an emptied cart always succeeds with total 0. */
  lemma SaveEmpty(products: map<Id, Product>)
    ensures SaveCart([], products) == Saved(Cart([], 0))
  {
  }
}
