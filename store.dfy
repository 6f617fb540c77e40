/** The collections the handlers read and write: products by id, carts by the
    owning user's id (so a user has at most one cart), the orders in creation
    order and the users in insertion order. */
module Store {
  import opened Common
  import opened ProductModel
  import opened CartModel
  import opened OrderModel
  import opened UserModel

  class Database {
    var products: map<Id, Product>
    var carts: map<Id, Cart>
    var orders: seq<Order>
    var users: seq<User>

    constructor ()
      ensures products == map[] && carts == map[] && orders == [] && users == []
    {
      products := map[];
      carts := map[];
      orders := [];
      users := [];
    }
  }
}
