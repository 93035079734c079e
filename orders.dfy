/** Orders in controllers/shop.js: the snapshot `getCheckoutSuccess` takes of
    the cart, the order store and the per-user carts it changes, and the
    owner filter of `getOrders`. */
module Orders {
  import opened Store
  import opened Pricing

  /** One entry of `order.products`: a by-value copy of the product as it
      was at checkout time, and the quantity. */
  datatype OrderItem = OrderItem(product: Product, quantity: int)

  /** `order.user`: the owner's email and id as they were at checkout time. */
  datatype OrderUser = OrderUser(email: string, userId: ObjectId)

  datatype Order = Order(id: ObjectId, user: OrderUser, products: seq<OrderItem>)

  /** `items.map(i => ({product: {...i.productId._doc}, quantity: i.quantity}))`. */
  function Snapshot(items: seq<CartItem>): (r: seq<OrderItem>)
    ensures |r| == |items|
    ensures forall i :: 0 <= i < |items| ==>
      r[i].product == items[i].product && r[i].quantity == items[i].quantity
  {
    seq(|items|, i requires 0 <= i < |items| => OrderItem(items[i].product, items[i].quantity))
  }

  /** The order `new Order({user: {email, userId}, products})` builds. */
  function PlaceOrder(user: User, id: ObjectId, cart: seq<CartItem>): Order
  {
    Order(id, OrderUser(user.email, user.id), Snapshot(cart))
  }

  /** The sum of frozen price x quantity over an order's products. */
  function OrderTotal(items: seq<OrderItem>): int
  {
    if items == [] then 0
    else
      var last := items[|items| - 1];
      OrderTotal(items[..|items| - 1]) + last.product.price * last.quantity
  }

  /** At the moment of checkout the order is worth what the cart was. */
  lemma {:induction false} SnapshotKeepsTotal(items: seq<CartItem>)
    ensures OrderTotal(Snapshot(items)) == CartTotal(items)
    decreases |items|
  {
    if items != [] {
      var n := |items|;
      assert Snapshot(items)[..n - 1] == Snapshot(items[..n - 1]);
      SnapshotKeepsTotal(items[..n - 1]);
    }
  }

  /** `Order.find({"user.userId": uid})`: the stored orders of one owner,
      in store order. */
  function OwnedBy(orders: seq<Order>, uid: ObjectId): (r: seq<Order>)
    ensures |r| <= |orders|
    ensures forall o <- r :: o in orders && o.user.userId == uid
    ensures forall o <- orders :: o.user.userId == uid ==> o in r
  {
    if orders == [] then []
    else (if orders[0].user.userId == uid then [orders[0]] else []) + OwnedBy(orders[1..], uid)
  }

  /** The filter keeps store order: filtering two stretches of the store
      and laying the results end to end filters the whole store. */
  lemma {:induction false} OwnedByAppend(a: seq<Order>, b: seq<Order>, uid: ObjectId)
    ensures OwnedBy(a + b, uid) == OwnedBy(a, uid) + OwnedBy(b, uid)
    decreases |a|
  {
    if a == [] {
      assert a + b == b;
    } else {
      assert (a + b)[1..] == a[1..] + b;
      OwnedByAppend(a[1..], b, uid);
    }
  }

  /** A placed order shows up at the end of its owner's listing and in no
      other user's. */
  lemma OrdersListingAfterCheckout(orders: seq<Order>, user: User, id: ObjectId, cart: seq<CartItem>, other: ObjectId)
    ensures OwnedBy(orders + [PlaceOrder(user, id, cart)], user.id) ==
      OwnedBy(orders, user.id) + [PlaceOrder(user, id, cart)]
    ensures other != user.id ==>
      OwnedBy(orders + [PlaceOrder(user, id, cart)], other) == OwnedBy(orders, other)
  {
    var order := PlaceOrder(user, id, cart);
    OwnedByAppend(orders, [order], user.id);
    OwnedByAppend(orders, [order], other);
    assert [order][1..] == [];
  }

  /** No two stored orders share an id. */
  ghost predicate DistinctIds(orders: seq<Order>)
  {
    forall i, j :: 0 <= i < j < |orders| ==> orders[i].id != orders[j].id
  }

  /** The writes `getCheckoutSuccess` makes, in the order it makes them. */
  datatype StoreEvent = OrderSaved(orderId: ObjectId) | CartCleared(userId: ObjectId)

  /** The database as the checkout handlers see it: the order collection and
      every user's cart. */
  class Shop {
    var orders: seq<Order>
    var carts: map<ObjectId, seq<CartItem>>
    /** The writes made so far, oldest first. */
    var log: seq<StoreEvent>

    ghost predicate Valid()
      reads this
    {
      DistinctIds(orders)
    }

    constructor (carts: map<ObjectId, seq<CartItem>>)
      ensures Valid()
      ensures this.orders == [] && this.carts == carts && this.log == []
    {
      this.orders := [];
      this.carts := carts;
      this.log := [];
    }

    /** `req.user.getCart()`; a user who never added anything has an empty cart. */
    function CartOf(uid: ObjectId): seq<CartItem>
      reads this
    {
      if uid in carts then carts[uid] else []
    }

    /** `getCheckoutSuccess`: snapshot the cart into a new order, save it,
        then clear the cart. `newId` is the id Mongoose gives the new
        document; `saveReply` and `clearReply` are the database's answers to
        `order.save()` and `req.user.clearCart()`. Nothing checks the cart
        or the payment first. */
    method CheckoutSuccess(user: User, newId: ObjectId, saveReply: Reply, clearReply: Reply)
      returns (r: Result<string>)
      requires Valid()
      requires forall o <- orders :: o.id != newId
      modifies this
      ensures Valid()
      ensures saveReply.Rejected? ==>
        && r == Failure(DatabaseError(saveReply.reason))
        && orders == old(orders) && carts == old(carts) && log == old(log)
      ensures saveReply.Ok? ==>
        orders == old(orders) + [PlaceOrder(user, newId, old(CartOf(user.id)))]
      ensures saveReply.Ok? && clearReply.Rejected? ==>
        && r == Failure(DatabaseError(clearReply.reason))
        && carts == old(carts)
        && log == old(log) + [OrderSaved(newId)]
      ensures saveReply.Ok? && clearReply.Ok? ==>
        && r == Success("/orders")
        && carts == old(carts)[user.id := []]
        && log == old(log) + [OrderSaved(newId), CartCleared(user.id)]
    {
      var items := CartOf(user.id);
      var order := Order(newId, OrderUser(user.email, user.id), Snapshot(items));
      if saveReply.Rejected? {
        return Failure(DatabaseError(saveReply.reason));
      }
      orders := orders + [order];
      log := log + [OrderSaved(newId)];
      if clearReply.Rejected? {
        return Failure(DatabaseError(clearReply.reason));
      }
      carts := carts[user.id := []];
      log := log + [CartCleared(user.id)];
      r := Success("/orders");
    }
  }

  /** Reaching the success URL twice places two orders: the first holds the
      cart, the second is empty, and their ids differ. */
  method RevisitSuccessUrl(shop: Shop, user: User, first: ObjectId, second: ObjectId)
    requires shop.Valid()
    requires first != second
    requires forall o <- shop.orders :: o.id != first && o.id != second
    modifies shop
    ensures shop.Valid()
    ensures shop.orders == old(shop.orders) +
      [PlaceOrder(user, first, old(shop.CartOf(user.id))), PlaceOrder(user, second, [])]
    ensures shop.CartOf(user.id) == []
  {
    var r1 := shop.CheckoutSuccess(user, first, Ok, Ok);
    var r2 := shop.CheckoutSuccess(user, second, Ok, Ok);
  }
}
