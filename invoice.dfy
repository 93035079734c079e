/** `getInvoice` in controllers/shop.js: look the order up, check that the
    caller owns it, then stream the invoice (headers, one line per frozen
    product, the total) to the response and end it. Only the logical text
    lines of the PDF are modelled, not its typography. */
module Invoice {
  import opened Store
  import opened Pricing
  import opened Orders

  /** One thing done to the HTTP response, in the order it is done. */
  datatype Write = HeaderSet(name: string, value: string) | TextWritten(text: string) | Closed

  /** The outbound response with the PDF document piped into it: it records
      the headers and the document's text lines in order. */
  class Response {
    var written: seq<Write>

    constructor ()
      ensures written == []
    {
      written := [];
    }

    /** `res.setHeader(name, value)`. */
    method SetHeader(name: string, value: string)
      modifies this
      ensures written == old(written) + [HeaderSet(name, value)]
    {
      written := written + [HeaderSet(name, value)];
    }

    /** `pdfDoc.text(text)`. */
    method WriteText(text: string)
      modifies this
      ensures written == old(written) + [TextWritten(text)]
    {
      written := written + [TextWritten(text)];
    }

    /** `pdfDoc.end()`, which ends the piped response. */
    method Close()
      modifies this
      ensures written == old(written) + [Closed]
    {
      written := written + [Closed];
    }
  }

  /** `Order.findById(orderId)`: the stored order whose id has the given
      string form, if any. */
  function FindOrder(orders: seq<Order>, orderId: string): (r: Option<Order>)
    ensures r.Some? ==> r.value in orders && r.value.id.ToString() == orderId
    ensures r.None? ==> forall o <- orders :: o.id.ToString() != orderId
  {
    if orders == [] then None
    else if orders[0].id.ToString() == orderId then Some(orders[0])
    else FindOrder(orders[1..], orderId)
  }

  /** Ids are unique in the store, so the order found is the only stored
      order with the requested id. */
  lemma {:induction false} FindOrderIsTheOnlyMatch(orders: seq<Order>, o: Order, orderId: string)
    requires DistinctIds(orders)
    requires o in orders && o.id.ToString() == orderId
    ensures FindOrder(orders, orderId) == Some(o)
    decreases |orders|
  {
    if orders[0] != o {
      var j :| 0 <= j < |orders| && orders[j] == o;
      assert orders[0].id != orders[j].id;
      assert orders[0].id.ToString() != orderId;
      assert o in orders[1..];
      FindOrderIsTheOnlyMatch(orders[1..], o, orderId);
    }
  }

  /** The ownership test: the ids are compared by their string forms. */
  predicate OwnedByCaller(order: Order, user: User)
  {
    order.user.userId.ToString() == user.id.ToString()
  }

  /** `invoice-${orderId}.pdf`. */
  function InvoiceName(orderId: string): string
  {
    "invoice-" + orderId + ".pdf"
  }

  /** `\n${title} - ${quantity} x $${price}`. */
  function ItemLine(item: OrderItem): string
  {
    "\n" + item.product.title + " - " + IntToString(item.quantity) + " x $" + IntToString(item.product.price)
  }

  /** The two headers, then the title block. */
  function Preamble(orderId: string): seq<Write>
  {
    [ HeaderSet("Content-Type", "application/pdf"),
      HeaderSet("Content-Disposition", "inline; filename=\"" + InvoiceName(orderId) + "\""),
      TextWritten("Invoice"),
      TextWritten("\nOrder ID: " + orderId),
      TextWritten("--------------------------------------------\n") ]
  }

  function ItemWrites(items: seq<OrderItem>): seq<Write>
  {
    seq(|items|, i requires 0 <= i < |items| => TextWritten(ItemLine(items[i])))
  }

  /** The rule, the total line, and the end of the stream. */
  function Closing(total: int): seq<Write>
  {
    [ TextWritten("\n-----------------------\n"),
      TextWritten("Total Price: $" + IntToString(total)),
      Closed ]
  }

  /** Everything a successful `getInvoice` does to the response. */
  function InvoiceWrites(orderId: string, items: seq<OrderItem>): seq<Write>
  {
    Preamble(orderId) + ItemWrites(items) + Closing(OrderTotal(items))
  }

  /** No header is set once a body line has been written. */
  ghost predicate HeadersFirst(w: seq<Write>)
  {
    forall i, j :: 0 <= i < j < |w| && w[j].HeaderSet? ==> w[i].HeaderSet?
  }

  /** Nothing follows the end of the stream. */
  ghost predicate ClosedLast(w: seq<Write>)
  {
    forall k :: 0 <= k < |w| && w[k].Closed? ==> k == |w| - 1
  }

  /** The two headers and the title block, before any product line. */
  method WritePreamble(orderId: string, res: Response)
    modifies res
    ensures res.written == old(res.written) + Preamble(orderId)
  {
    res.SetHeader("Content-Type", "application/pdf");
    res.SetHeader("Content-Disposition", "inline; filename=\"" + InvoiceName(orderId) + "\"");
    res.WriteText("Invoice");
    res.WriteText("\nOrder ID: " + orderId);
    res.WriteText("--------------------------------------------\n");
  }

  /** The `forEach` over the order's products: one line each, in order,
      while `totalPrice` accumulates the frozen price x quantity. */
  method WriteItems(items: seq<OrderItem>, res: Response) returns (totalPrice: int)
    modifies res
    ensures res.written == old(res.written) + ItemWrites(items)
    ensures totalPrice == OrderTotal(items)
  {
    totalPrice := 0;
    var i := 0;
    while i < |items|
      invariant 0 <= i <= |items|
      invariant totalPrice == OrderTotal(items[..i])
      invariant res.written == old(res.written) + ItemWrites(items[..i])
    {
      var item := items[i];
      assert items[..i + 1][..i] == items[..i];
      assert ItemWrites(items[..i + 1]) == ItemWrites(items[..i]) + [TextWritten(ItemLine(item))];
      res.WriteText(ItemLine(item));
      totalPrice := totalPrice + item.product.price * item.quantity;
      i := i + 1;
    }
    assert items[..i] == items;
  }

  /** The streaming part of `getInvoice`, from the first header to `end()`. */
  method WriteInvoice(orderId: string, items: seq<OrderItem>, res: Response)
    modifies res
    ensures res.written == old(res.written) + InvoiceWrites(orderId, items)
  {
    WritePreamble(orderId, res);
    assert res.written == old(res.written) + Preamble(orderId);
    var totalPrice := WriteItems(items, res);
    assert res.written == old(res.written) + Preamble(orderId) + ItemWrites(items);
    res.WriteText("\n-----------------------\n");
    res.WriteText("Total Price: $" + IntToString(totalPrice));
    res.Close();
    assert res.written == old(res.written) + Preamble(orderId) + ItemWrites(items) + Closing(totalPrice);
  }

  /** `getInvoice`. On a missing order or a foreign one the error is
      forwarded and the response is untouched; otherwise the whole invoice
      is written, the running total accumulated line by line. */
  method GetInvoice(shop: Shop, user: User, orderId: string, res: Response) returns (r: Result<()>)
    requires shop.Valid()
    modifies res
    ensures forall o <- shop.orders :: o.id.ToString() == orderId ==> FindOrder(shop.orders, orderId) == Some(o)
    ensures FindOrder(shop.orders, orderId).None? ==>
      r == Failure(NoOrderFound) && res.written == old(res.written)
    ensures FindOrder(shop.orders, orderId).Some? && !OwnedByCaller(FindOrder(shop.orders, orderId).value, user) ==>
      r == Failure(Unauthorized) && res.written == old(res.written)
    ensures FindOrder(shop.orders, orderId).Some? && OwnedByCaller(FindOrder(shop.orders, orderId).value, user) ==>
      && r == Success(())
      && res.written == old(res.written) + InvoiceWrites(orderId, FindOrder(shop.orders, orderId).value.products)
  {
    forall o <- shop.orders | o.id.ToString() == orderId
      ensures FindOrder(shop.orders, orderId) == Some(o)
    {
      FindOrderIsTheOnlyMatch(shop.orders, o, orderId);
    }
    var found := FindOrder(shop.orders, orderId);
    if found.None? {
      return Failure(NoOrderFound);
    }
    var order := found.value;
    if order.user.userId.ToString() != user.id.ToString() {
      return Failure(Unauthorized);
    }
    WriteInvoice(orderId, order.products, res);
    r := Success(());
  }

  /** An invoice is only ever served for an order on the caller's own
      `getOrders` listing. */
  lemma InvoiceOnlyForListedOrders(orders: seq<Order>, orderId: string, user: User)
    requires FindOrder(orders, orderId).Some?
    requires OwnedByCaller(FindOrder(orders, orderId).value, user)
    ensures FindOrder(orders, orderId).value in OwnedBy(orders, user.id)
  {
    var o := FindOrder(orders, orderId).value;
    assert o.user.userId == ObjectId(o.user.userId.hex) == ObjectId(user.id.hex) == user.id;
  }

  /** Write `k` of an invoice, read off the part it falls in. */
  lemma InvoiceWriteAt(orderId: string, items: seq<OrderItem>, k: int)
    requires 0 <= k < |items| + 8
    ensures |InvoiceWrites(orderId, items)| == |items| + 8
    ensures InvoiceWrites(orderId, items)[k] ==
      if k < 5 then Preamble(orderId)[k]
      else if k < 5 + |items| then TextWritten(ItemLine(items[k - 5]))
      else Closing(OrderTotal(items))[k - 5 - |items|]
  {
    var p, m, c := Preamble(orderId), ItemWrites(items), Closing(OrderTotal(items));
    assert InvoiceWrites(orderId, items) == (p + m) + c;
    if k < 5 + |items| {
      assert InvoiceWrites(orderId, items)[k] == (p + m)[k];
    }
  }

  /** Headers are writes 0 and 1, and no other write is a header. */
  lemma InvoiceHeaders(orderId: string, items: seq<OrderItem>)
    ensures |InvoiceWrites(orderId, items)| == |items| + 8
    ensures forall k :: 0 <= k < |items| + 8 ==>
      (InvoiceWrites(orderId, items)[k].HeaderSet? <==> k < 2)
  {
    InvoiceWriteAt(orderId, items, 0);
    forall k | 0 <= k < |items| + 8
      ensures InvoiceWrites(orderId, items)[k].HeaderSet? <==> k < 2
    {
      InvoiceWriteAt(orderId, items, k);
    }
  }

  /** The end of the stream is the last write, and only there. */
  lemma InvoiceEndsLast(orderId: string, items: seq<OrderItem>)
    ensures |InvoiceWrites(orderId, items)| == |items| + 8
    ensures forall k :: 0 <= k < |items| + 8 ==>
      (InvoiceWrites(orderId, items)[k].Closed? <==> k == |items| + 7)
  {
    InvoiceWriteAt(orderId, items, 0);
    forall k | 0 <= k < |items| + 8
      ensures InvoiceWrites(orderId, items)[k].Closed? <==> k == |items| + 7
    {
      InvoiceWriteAt(orderId, items, k);
    }
  }

  /** Product `i`'s line is write `5 + i`. */
  lemma InvoiceItemLines(orderId: string, items: seq<OrderItem>)
    ensures |InvoiceWrites(orderId, items)| == |items| + 8
    ensures forall i :: 0 <= i < |items| ==>
      InvoiceWrites(orderId, items)[5 + i] == TextWritten(ItemLine(items[i]))
  {
    InvoiceWriteAt(orderId, items, 0);
    forall i | 0 <= i < |items|
      ensures InvoiceWrites(orderId, items)[5 + i] == TextWritten(ItemLine(items[i]))
    {
      InvoiceWriteAt(orderId, items, 5 + i);
    }
  }

  /** The invoice's shape: the content type and the filename header come
      first and only there, one line per product in order, the total of the
      frozen prices second to last, and the end of the stream last. */
  lemma InvoiceLayout(orderId: string, items: seq<OrderItem>)
    ensures |InvoiceWrites(orderId, items)| == |items| + 8
    ensures InvoiceWrites(orderId, items)[1] ==
      HeaderSet("Content-Disposition", "inline; filename=\"invoice-" + orderId + ".pdf\"")
    ensures forall k :: 0 <= k < |items| + 8 ==>
      (InvoiceWrites(orderId, items)[k].HeaderSet? <==> k < 2)
    ensures forall k :: 0 <= k < |items| + 8 ==>
      (InvoiceWrites(orderId, items)[k].Closed? <==> k == |items| + 7)
    ensures forall i :: 0 <= i < |items| ==>
      InvoiceWrites(orderId, items)[5 + i] == TextWritten(ItemLine(items[i]))
    ensures InvoiceWrites(orderId, items)[|items| + 6] ==
      TextWritten("Total Price: $" + IntToString(OrderTotal(items)))
  {
    InvoiceWriteAt(orderId, items, 1);
    assert "inline; filename=\"" + InvoiceName(orderId) + "\"" ==
      "inline; filename=\"invoice-" + orderId + ".pdf\"";
    InvoiceWriteAt(orderId, items, |items| + 6);
    InvoiceHeaders(orderId, items);
    InvoiceEndsLast(orderId, items);
    InvoiceItemLines(orderId, items);
  }

  /** Hence the response is well formed: headers before any body line, and
      the end of the stream last. */
  lemma InvoiceIsWellFormed(orderId: string, items: seq<OrderItem>)
    ensures HeadersFirst(InvoiceWrites(orderId, items))
    ensures ClosedLast(InvoiceWrites(orderId, items))
  {
    InvoiceLayout(orderId, items);
  }

  /** The invoice of an order fresh from checkout prints the same total as
      the checkout page showed for the cart it was taken from. */
  lemma InvoiceTotalOfPlacedOrder(user: User, id: ObjectId, cart: seq<CartItem>, orderId: string)
    ensures var w := InvoiceWrites(orderId, PlaceOrder(user, id, cart).products);
      w[|w| - 2] == TextWritten("Total Price: $" + IntToString(CartTotal(cart)))
  {
    InvoiceLayout(orderId, Snapshot(cart));
    SnapshotKeepsTotal(cart);
  }
}
