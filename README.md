# Online shop storefront — checkout, orders and invoices in Dafny

A model of `controllers/shop.js`, the request handlers of a server-rendered
Express/Mongoose storefront. The handlers list the product catalogue a page
at a time. They price the user's cart and open a hosted Stripe checkout
session. When the browser reaches the success URL they turn the cart into an
order and clear the cart. They list a user's orders, and they stream a PDF
invoice for one order.

Modules, one per file:

- `Store` (`store.dfy`): ObjectIds and their string form, products, users,
  the errors the handlers forward, and how template strings print integers.
- `Pagination` (`pagination.dfy`): the computation shared by `getProducts`
  and `getIndex`. It normalises the page number, takes the window of at most
  six products, and derives `hasNextPage`, `hasPrevPage`, `nextPage`,
  `prevPage` and `lastPage`.
- `Pricing` (`pricing.dfy`): the cart total accumulated by `getCheckout`'s
  loop, the provider line items (price x 100 in cents), and the two callback
  URLs.
- `Orders` (`orders.dfy`): the order snapshot, the `getOrders` owner filter,
  and the `Shop` class. `Shop` holds the order store and every user's cart.
  Its method `CheckoutSuccess` is the one state change in the system:
  snapshot the cart, save the order, then clear the cart.
- `Checkout` (`checkout.dfy`): `getCheckout`, with the payment provider
  reduced to a `PaymentGateway` object. The gateway records the session
  request it receives and answers with a reply fixed in advance.
- `Invoice` (`invoice.dfy`): `getInvoice` writing into a `Response` sink.
  The sink records, in order, the headers set, the logical text lines of
  the PDF, and the end of the stream.

Prices are whole currency units (`int`), so totals and the x100 scaling are
exact. Ids are `ObjectId(hex)`, and their `ToString()` is the hex string the
source compares. `Shop.Valid` says no two stored orders share an id, as
MongoDB's unique `_id` index guarantees; `CheckoutSuccess` keeps it and
`GetInvoice` relies on it.

Calls into code that is not part of this model become parameters:
- the ids Mongoose assigns to new orders;
- the database's answers to `order.save()` and `req.user.clearCart()`;
- the payment provider's answer;
- the request's protocol and host.

Behaviour of `controllers/shop.js` worth noting:
- Pricing never rejects a missing or non-numeric price: `+undefined` is NaN,
  and nothing validates it. The model has integer prices only.
- The invoice line prints `quantity x $price`; it never prints their product.
- The handler sets no `createdAt` on the order it builds.
- A negative page is not clamped: `+"-2" || 1` is -2. This gives a negative
  skip, which MongoDB rejects, so the handler forwards an error.

## Model

| member | source | states |
|---|---|---|
| `Store.NatToString` | controllers/shop.js:192 | a rendered integer is a non-empty string of decimal digits with no leading zero |
| `Store.NatToStringDenotes` | controllers/shop.js:198 | the printed digits denote exactly the number printed, so with integer prices and quantities the invoice shows the true quantity, price and total |
| `Pagination.LastPage` | controllers/shop.js:25 | `lastPage` is the ceiling of total / 6: six times it covers every product, and one page fewer would not |
| `Pagination.Window` | controllers/shop.js:13-15 | skip/limit gives at most `limit` products, exactly `limit` when enough remain, each the catalogue's product at `skip + i`, and none past the end |
| `Pagination.Paginate` | controllers/shop.js:9-25 | the handler fails exactly when the page stays negative; otherwise the page is at least 1 (0, absent and NaN become 1, a positive number is kept), `hasNextPage` iff `currentPage < lastPage`, `hasPrevPage` iff `currentPage > 1`, next/prev are the neighbours, at most 6 products, 6 when a next page exists, and product i of the page is catalogue item `(currentPage-1)*6 + i` |
| `Pagination.HasNextPageIffBeforeLastPage` | controllers/shop.js:65-69 | for every page from 1 on, `6 * currentPage < totalProducts` holds exactly when `currentPage < ceil(totalProducts / 6)` |
| `Pagination.PastLastPageIsEmpty` | controllers/shop.js:56-65 | a page past `lastPage` succeeds with no products and no next page |
| `Pagination.EveryProductIsOnItsPage` | controllers/shop.js:52-58 | every catalogue product i is shown, as item `i % 6` of page `i / 6 + 1` |
| `Pricing.ComputeTotal` | controllers/shop.js:209-212 | the loop's `totalPrice` is the sum of price x quantity over the whole cart (0 for an empty cart) |
| `Pricing.CartTotalAppend` | controllers/shop.js:210-211 | the total of two carts laid end to end is the sum of their totals |
| `Pricing.LineItems` | controllers/shop.js:214-223 | one line item per cart entry, in cart order, with currency usd, name = title, unit amount = price x 100 and the entry's quantity |
| `Pricing.AmountDueIsTotalInCents` | controllers/shop.js:209-223 | the sum of unit amount x quantity over the line items is 100 x the cart total |
| `Pricing.CallbackUrls` | controllers/shop.js:229-230 | both callback URLs start with `protocol://host`, and the success and cancel URLs differ |
| `Checkout.PaymentGateway.CreateSession` | controllers/shop.js:225-231 | the provider receives exactly the request built, once, and its answer is returned unchanged |
| `Checkout.GetCheckout` | controllers/shop.js:206-238 | exactly one session request is sent, for card payment in payment mode, with the cart's line items and both callback URLs; on the provider's success the page gets the cart, its total and the session id; on failure the handler forwards an error carrying the provider's failure text |
| `Checkout.SessionChargesPageTotal` | controllers/shop.js:214-231 | the session request carries one line item per cart entry and charges 100 x the total the page shows |
| `Orders.Snapshot` | controllers/shop.js:121-123 | the order has one product per cart entry, in cart order, each a copy of the entry's product with its quantity |
| `Orders.SnapshotKeepsTotal` | controllers/shop.js:121-123 | the frozen order's total equals the cart's total at checkout time |
| `Orders.OwnedBy` | controllers/shop.js:143 | the listing holds only stored orders whose `user.userId` is the caller's, and every such order |
| `Orders.OwnedByAppend` | controllers/shop.js:143 | the filter keeps store order: it distributes over concatenation of the store |
| `Orders.OrdersListingAfterCheckout` | controllers/shop.js:124-143 | a placed order appears last in its owner's listing and in no other user's listing |
| `Orders.Shop.CheckoutSuccess` | controllers/shop.js:118-133 | a failed save adds no order and leaves the cart; otherwise exactly one order is appended (the caller's email and id, the snapshot of the cart) and earlier orders are unchanged; the save is logged before the clear; a failed clear keeps the order and the cart; success empties the cart and redirects to /orders; order ids stay distinct |
| `Orders.RevisitSuccessUrl` | controllers/shop.js:118-137 | reaching the success URL twice adds two orders with distinct ids, the first with the cart, the second empty |
| `Invoice.Response.SetHeader` | controllers/shop.js:174-178 | a header is appended to what the response has recorded |
| `Invoice.Response.WriteText` | controllers/shop.js:182-198 | a text line is appended to what the response has recorded |
| `Invoice.Response.Close` | controllers/shop.js:200 | the end of the stream is appended to what the response has recorded |
| `Invoice.FindOrder` | controllers/shop.js:160-164 | a found order is stored and has the requested id; no order means no stored order has that id |
| `Invoice.FindOrderIsTheOnlyMatch` | controllers/shop.js:160 | with ids unique in the store, any stored order with the requested id is the one the lookup returns |
| `Invoice.WritePreamble` | controllers/shop.js:170-185 | the content type and `inline; filename="invoice-{orderId}.pdf"` headers, then the title and order id lines |
| `Invoice.WriteItems` | controllers/shop.js:187-195 | one `title - qty x $price` line per order product in order, and the running total ends at the sum of frozen price x quantity |
| `Invoice.WriteInvoice` | controllers/shop.js:173-200 | the response receives the whole invoice: preamble, product lines, total line, end |
| `Invoice.GetInvoice` | controllers/shop.js:156-204 | a missing order fails with "No order found.", a foreign one with "Unauthorized", and neither writes anything; otherwise the whole invoice is written; the order invoiced is the only stored order with that id |
| `Invoice.InvoiceOnlyForListedOrders` | controllers/shop.js:166-168 | an order that passes the string-form owner check is on the caller's `getOrders` listing |
| `Invoice.InvoiceWriteAt` | controllers/shop.js:174-200 | every write of the invoice is the one of the preamble, of product `k - 5`'s line, or of the closing that its position says |
| `Invoice.InvoiceHeaders` | controllers/shop.js:174-180 | the two headers are writes 0 and 1, and no later write is a header |
| `Invoice.InvoiceEndsLast` | controllers/shop.js:200 | the end of the stream is the last write and appears nowhere else |
| `Invoice.InvoiceItemLines` | controllers/shop.js:188-195 | product i's `title - qty x $price` line is write 5 + i, in product order |
| `Invoice.InvoiceLayout` | controllers/shop.js:174-200 | the invoice is 8 writes plus one per product: headers at positions 0 and 1 only, the filename header `invoice-{orderId}.pdf`, product i's line at position 5 + i, the total of frozen prices second to last, and the end of the stream last and only there |
| `Invoice.InvoiceIsWellFormed` | controllers/shop.js:174-200 | no header follows a body line, and nothing follows the end of the stream |
| `Invoice.InvoiceTotalOfPlacedOrder` | controllers/shop.js:187-198 | the invoice of an order fresh from checkout prints the total the checkout page showed for the cart |

## Left out

- `util/db.js`: it opens the Mongoose connection and logs, and holds no logic.
- `getProduct`, `getCart`, `postCart` and `postCartDeleteProduct` are not part of this model. They pass their arguments straight to the catalogue and the cart, which belong to other code. The cart reaches the model already resolved, as `Shop.carts`.
- A cart entry whose product was deleted from the catalogue is not modelled. In the source `i.productId._doc` would throw there, and whether `getCart` filters such entries is outside this file.
- `stripe.checkout.sessions.create`: only the request it receives and a reply fixed in advance are modelled, not what the provider does.
- Mongoose: `countDocuments`, `find().skip().limit()`, `findById` and `populate` are replaced by lookups over sequences. The `products.product` populate has no effect on embedded copies. An order id that is not a valid ObjectId makes Mongoose throw a cast error; the model treats it as not found. ObjectId hex case is not normalised.
- The `_doc` spread is modelled as a by-value copy of the product. Only the fields the handlers read are kept: id, title and price.
- `Pagination.Paginate`: the page number is modelled after the unary `+` as absent, NaN or an integer. Fractional pages, `Infinity` and strings such as `"0x10"` are not modelled.
- `Pagination.Paginate`: the failure for a negative page is MongoDB rejecting a negative skip; the error text is the model's own.
- Prices are integers. Floating-point `price * 100` and the order of summation are not modelled.
- `Store.NatToStringDenotes`: holds only under the integer abstraction. JavaScript prints integers of 1e21 or more in exponent form (`${1e21}` is `"1e+21"`), and integers above 2^53 lose precision; neither is modelled.
- `Checkout.GetCheckout`: the model's error carries the provider's failure text. The source forwards `new Error(err)`, a fresh error whose message is `String(err)`, not the provider's or the database's error object; the same holds for `Orders.Shop.CheckoutSuccess` and `Pagination.Paginate`.
- `res.render`, template data and titles are left out; `CheckoutSuccess` returns only its redirect target `/orders`.
- pdfkit font sizes and alignment are left out. Only the ordered logical text lines are kept.
- The unused `invoicePath` is left out.
- Concurrency between requests, such as two checkouts of the same user racing, is left out. The model is sequential.
- The HTTP status attached to forwarded errors (500) is left out, along with the error middleware.
- A failure in the middle of the PDF stream and a client that disconnects are left out.
