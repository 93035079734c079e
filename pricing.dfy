/** The pricing half of `getCheckout` in controllers/shop.js: the cart total,
    the payment provider's line items and the two callback URLs. */
module Pricing {
  import opened Store

  /** A cart entry as `req.user.getCart()` returns it: the product resolved
      from the catalogue at its current price, and the quantity. */
  datatype CartItem = CartItem(product: Product, quantity: int)

  /** The sum of price x quantity over a cart, folded from the left as the
      source's `forEach` accumulates it. */
  function CartTotal(items: seq<CartItem>): int
  {
    if items == [] then 0
    else
      var last := items[|items| - 1];
      CartTotal(items[..|items| - 1]) + last.product.price * last.quantity
  }

  /** `let totalPrice = 0; products.forEach(p => totalPrice += price * quantity)`. */
  method ComputeTotal(items: seq<CartItem>) returns (totalPrice: int)
    ensures totalPrice == CartTotal(items)
  {
    totalPrice := 0;
    var i := 0;
    while i < |items|
      invariant 0 <= i <= |items|
      invariant totalPrice == CartTotal(items[..i])
    {
      assert items[..i + 1][..i] == items[..i];
      totalPrice := totalPrice + items[i].product.price * items[i].quantity;
      i := i + 1;
    }
    assert items[..i] == items;
  }

  /** The total of two carts laid end to end is the sum of their totals. */
  lemma {:induction false} CartTotalAppend(a: seq<CartItem>, b: seq<CartItem>)
    ensures CartTotal(a + b) == CartTotal(a) + CartTotal(b)
    decreases |b|
  {
    if b != [] {
      var b' := b[..|b| - 1];
      assert (a + b)[..|a + b| - 1] == a + b';
      var last := b[|b| - 1];
      assert (a + b)[|a + b| - 1] == last;
      calc {
        CartTotal(a + b);
        CartTotal(a + b') + last.product.price * last.quantity;
        { CartTotalAppend(a, b'); }
        CartTotal(a) + CartTotal(b') + last.product.price * last.quantity;
        CartTotal(a) + CartTotal(b);
      }
    } else {
      assert a + b == a;
    }
  }

  /** One provider line item: `{price_data: {currency, product_data: {name},
      unit_amount}, quantity}`, the amount in minor units (cents). */
  datatype LineItem = LineItem(currency: string, name: string, unitAmount: int, quantity: int)

  function ToLineItem(item: CartItem): LineItem
  {
    LineItem("usd", item.product.title, item.product.price * 100, item.quantity)
  }

  /** `products.map(...)`: one line item per cart entry, in cart order. */
  function LineItems(items: seq<CartItem>): (r: seq<LineItem>)
    ensures |r| == |items|
    ensures forall i :: 0 <= i < |items| ==>
      && r[i].currency == "usd"
      && r[i].name == items[i].product.title
      && r[i].unitAmount == items[i].product.price * 100
      && r[i].quantity == items[i].quantity
  {
    seq(|items|, i requires 0 <= i < |items| => ToLineItem(items[i]))
  }

  /** What the provider charges for a list of line items, in minor units. */
  function AmountDue(lines: seq<LineItem>): int
  {
    if lines == [] then 0
    else
      var last := lines[|lines| - 1];
      AmountDue(lines[..|lines| - 1]) + last.unitAmount * last.quantity
  }

  /** The provider is asked for exactly the checkout page's total, in cents. */
  lemma {:induction false} AmountDueIsTotalInCents(items: seq<CartItem>)
    ensures AmountDue(LineItems(items)) == 100 * CartTotal(items)
    decreases |items|
  {
    if items != [] {
      var n := |items|;
      assert LineItems(items)[..n - 1] == LineItems(items[..n - 1]);
      AmountDueIsTotalInCents(items[..n - 1]);
      var last := items[n - 1];
      calc {
        AmountDue(LineItems(items));
        100 * CartTotal(items[..n - 1]) + (last.product.price * 100) * last.quantity;
        { assert (last.product.price * 100) * last.quantity == 100 * (last.product.price * last.quantity); }
        100 * CartTotal(items);
      }
    }
  }

  /** `${req.protocol}://${req.get("host")}`. */
  function BaseUrl(protocol: string, host: string): string
  {
    protocol + "://" + host
  }

  function SuccessUrl(protocol: string, host: string): string
  {
    BaseUrl(protocol, host) + "/checkout/success"
  }

  function CancelUrl(protocol: string, host: string): string
  {
    BaseUrl(protocol, host) + "/checkout/cancel"
  }

  /** Both callbacks point back at the requesting host, and the provider can
      tell them apart. */
  lemma CallbackUrls(protocol: string, host: string)
    ensures var base := BaseUrl(protocol, host);
      && SuccessUrl(protocol, host)[..|base|] == base
      && CancelUrl(protocol, host)[..|base|] == base
      && SuccessUrl(protocol, host) != CancelUrl(protocol, host)
  {
    var base := BaseUrl(protocol, host);
    assert |SuccessUrl(protocol, host)| == |base| + 17;
    assert |CancelUrl(protocol, host)| == |base| + 16;
  }
}
