/** `getCheckout` in controllers/shop.js: price the user's cart, ask the
    payment provider for a hosted checkout session, and hand the total and
    the session id to the checkout page. */
module Checkout {
  import opened Store
  import opened Pricing
  import opened Orders

  /** The argument of `stripe.checkout.sessions.create`. */
  datatype SessionRequest = SessionRequest(
    paymentMethodTypes: seq<string>,
    lineItems: seq<LineItem>,
    mode: string,
    successUrl: string,
    cancelUrl: string)

  /** What `res.render("shop/checkout", ...)` receives besides the titles. */
  datatype CheckoutView = CheckoutView(products: seq<CartItem>, totalPrice: int, sessionId: string)

  /** The session request built for a cart and the request's protocol and host:
      card payment only, one-off payment mode. */
  function SessionRequestFor(cart: seq<CartItem>, protocol: string, host: string): SessionRequest
  {
    SessionRequest(["card"], LineItems(cart), "payment", SuccessUrl(protocol, host), CancelUrl(protocol, host))
  }

  /** The payment provider as the handler sees it. Its behaviour is not
      modelled: it records every request it receives and answers with
      `reply`, a session id or the provider's error. */
  class PaymentGateway {
    var requests: seq<SessionRequest>
    var reply: Result<string>

    constructor (reply: Result<string>)
      ensures this.requests == [] && this.reply == reply
    {
      this.requests := [];
      this.reply := reply;
    }

    method CreateSession(request: SessionRequest) returns (r: Result<string>)
      modifies this
      ensures requests == old(requests) + [request]
      ensures reply == old(reply)
      ensures r == reply
    {
      requests := requests + [request];
      r := reply;
    }
  }

  /** `getCheckout`: one session request carrying the priced cart; on the
      provider's success the page gets the cart, its total and the session
      id, on its failure the error is forwarded. The cart is read, never
      changed. */
  method GetCheckout(shop: Shop, user: User, protocol: string, host: string, gateway: PaymentGateway)
    returns (r: Result<CheckoutView>)
    modifies gateway
    ensures gateway.requests == old(gateway.requests) + [SessionRequestFor(shop.CartOf(user.id), protocol, host)]
    ensures gateway.reply == old(gateway.reply)
    ensures gateway.reply.Failure? ==> r == Failure(gateway.reply.error)
    ensures gateway.reply.Success? ==>
      r == Success(CheckoutView(shop.CartOf(user.id), CartTotal(shop.CartOf(user.id)), gateway.reply.value))
  {
    var products := shop.CartOf(user.id);
    var totalPrice := ComputeTotal(products);
    var lineItems := LineItems(products);
    var session := gateway.CreateSession(
      SessionRequest(["card"], lineItems, "payment", SuccessUrl(protocol, host), CancelUrl(protocol, host)));
    if session.Failure? {
      return Failure(session.error);
    }
    r := Success(CheckoutView(products, totalPrice, session.value));
  }

  /** The provider charges, in cents, exactly the total the checkout page
      shows, whatever the cart. */
  lemma {:induction false} SessionChargesPageTotal(cart: seq<CartItem>, protocol: string, host: string)
    ensures AmountDue(SessionRequestFor(cart, protocol, host).lineItems) == 100 * CartTotal(cart)
    ensures |SessionRequestFor(cart, protocol, host).lineItems| == |cart|
  {
    AmountDueIsTotalInCents(cart);
  }
}
