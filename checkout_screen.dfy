/** The sales-rep order summary screen (ventas/app/pedido/carrito.tsx): the
    order built from the cart, the confirmation that clears the cart only
    after the order is accepted, the message shown when it is not, and the
    quantity buttons. */
module CheckoutScreen {
  import opened Common
  import opened CartLines
  import opened SharedCart
  import opened CreateOrder

  const DefaultCustomer := "cliente-default"

  /** The `payload` of `confirmOrder`: the route's customer, or the default
      when it is missing or empty; one line per cart line, in cart order,
      with the product code as SKU. */
  function OrderPayload(clienteId: Option<string>, items: seq<CartItem>): (p: CreateOrderPayload)
    ensures p.customerId == (if Truthy(clienteId) then clienteId.value else DefaultCustomer)
    ensures p.createdByRole == "vendedor" && p.source == "mobile-ventas"
    ensures |p.items| == |items|
    ensures forall i :: 0 <= i < |items| ==> p.items[i] == OrderLine(items[i].code, items[i].quantity)
  {
    CreateOrderPayload(
      if Truthy(clienteId) then clienteId.value else DefaultCustomer,
      "vendedor", "mobile-ventas",
      seq(|items|, i requires 0 <= i < |items| => OrderLine(items[i].code, items[i].quantity)))
  }

  /** What the order service receives for a cart: its lines' codes and
      quantities, in order, under the chosen customer. */
  lemma BodyMirrorsCart(clienteId: Option<string>, items: seq<CartItem>)
    ensures var b := ToBody(OrderPayload(clienteId, items));
            |b.items| == |items|
            && (forall i :: 0 <= i < |items| ==> b.items[i].sku == items[i].code && b.items[i].qty == items[i].quantity)
            && (clienteId.Some? && clienteId.value != "" ==> b.customerId == clienteId.value)
  {
  }

  /** The parts of a failed request the screen looks at: `e.code`,
      `e.message`, `e.response.data.message` and `e.response.data.detail`. */
  datatype RequestError = RequestError(
    code: Option<string>, message: Option<string>, dataMessage: Option<string>, dataDetail: Option<string>)

  const UnknownNetworkError := "Error de red desconocido"
  const ConnectivityError := "Error de conectividad. Verifica tu conexión a internet."
  const ServerUnreachable := "No se pudo conectar al servidor. Verifica que el servidor esté ejecutándose."

  /** `errorMessage`: the first that applies of a network error code, a
      message mentioning `Network Error`, the server's message, the server's
      detail, the error's own message, and the default. */
  function ErrorMessage(e: RequestError): (m: string)
    ensures e.code == Some("NETWORK_ERROR") ==> m == ConnectivityError
    ensures e.code != Some("NETWORK_ERROR") && e.message.Some? && Contains(e.message.value, "Network Error") ==> m == ServerUnreachable
    ensures m == ConnectivityError || m == ServerUnreachable || m == UnknownNetworkError
         || (Truthy(e.dataMessage) && m == e.dataMessage.value)
         || (Truthy(e.dataDetail) && m == e.dataDetail.value)
         || (Truthy(e.message) && m == e.message.value)
    ensures !Truthy(e.dataMessage) && !Truthy(e.dataDetail) && !Truthy(e.message) && e.code != Some("NETWORK_ERROR") ==> m == UnknownNetworkError
  {
    if e.code == Some("NETWORK_ERROR") then ConnectivityError
    else if e.message.Some? && Contains(e.message.value, "Network Error") then ServerUnreachable
    else if Truthy(e.dataMessage) then e.dataMessage.value
    else if Truthy(e.dataDetail) then e.dataDetail.value
    else if Truthy(e.message) then e.message.value
    else UnknownNetworkError
  }

  /** The server's message is shown only when neither network condition
      holds, and it hides the detail and the error's own message. */
  lemma ServerMessageBeatsDetail(e: RequestError)
    requires e.code != Some("NETWORK_ERROR")
    requires !(e.message.Some? && Contains(e.message.value, "Network Error"))
    requires Truthy(e.dataMessage)
    ensures ErrorMessage(e) == e.dataMessage.value
  {
  }

  /** What the user sees after tapping confirm. */
  datatype ConfirmOutcome = EmptyCartAlert | Confirmed(orderId: string) | ErrorAlert(message: string)

  /** `confirmOrder`, given the outcome the order service would produce and
      the idempotency key the mutation would draw. An empty cart stops before
      any request; otherwise exactly one request is sent, and the cart is
      cleared only when it succeeds. */
  method ConfirmOrder(cart: CartStore, clienteId: Option<string>, key: string, post: PostOutcome<Option<string>, RequestError>)
    returns (outcome: ConfirmOutcome, sent: seq<Request>)
    requires cart.Valid()
    modifies cart
    ensures cart.Valid() && cart.isOpen == old(cart.isOpen)
    ensures old(cart.items) == [] ==> outcome == EmptyCartAlert && sent == [] && cart.items == old(cart.items)
    ensures old(cart.items) != [] ==> sent == [VentasRequest(OrderPayload(clienteId, old(cart.items)), key)]
    ensures old(cart.items) != [] && post.Responded? ==>
      cart.items == [] && outcome == Confirmed(if post.data.Some? then post.data.value else "—")
    ensures old(cart.items) != [] && post.Raised? ==>
      cart.items == old(cart.items) && outcome == ErrorAlert(ErrorMessage(post.error))
  {
    if |cart.items| == 0 {
      return EmptyCartAlert, [];
    }
    var payload := OrderPayload(clienteId, cart.items);
    var result;
    result, sent := VentasMutation(payload, key, post);
    match result {
      case Ok(id) =>
        cart.ClearCart();
        outcome := Confirmed(if id.Some? then id.value else "—");
      case Err(e) =>
        outcome := ErrorAlert(ErrorMessage(e));
    }
  }

  /** The − button of line `k`: `updateQuantity(id, quantity - 1)`. A line
      at quantity 1 disappears; a larger one goes down by one. */
  method Decrement(cart: CartStore, k: nat)
    requires cart.Valid() && k < |cart.items|
    modifies cart
    ensures cart.Valid() && cart.isOpen == old(cart.isOpen)
    ensures old(cart.items)[k].quantity <= 1 ==> cart.items == old(cart.items)[..k] + old(cart.items)[k + 1..]
    ensures old(cart.items)[k].quantity > 1 ==>
      cart.items == old(cart.items)[k := old(cart.items)[k].(quantity := old(cart.items)[k].quantity - 1)]
  {
    var line := cart.items[k];
    ghost var before := cart.items;
    cart.UpdateQuantity(line.id, line.quantity - 1);
    if line.quantity <= 1 {
      RemoveIdAt(before, line.id, k);
    } else {
      forall i | 0 <= i < |before| ensures before[i].id == line.id <==> i == k {
        if i != k { assert before[i].id != before[k].id; }
      }
      assert cart.items == before[k := line.(quantity := line.quantity - 1)];
    }
  }

  /** The + button of line `k`: `updateQuantity(id, quantity + 1)`, which
      the store caps at the line's stock (a line whose quantity went
      negative through `addItem` is removed instead). */
  method Increment(cart: CartStore, k: nat)
    requires cart.Valid() && k < |cart.items|
    modifies cart
    ensures cart.Valid() && cart.isOpen == old(cart.isOpen)
    ensures old(cart.items)[k].quantity < 0 ==> cart.items == old(cart.items)[..k] + old(cart.items)[k + 1..]
    ensures old(cart.items)[k].quantity >= 0 ==>
      cart.items == old(cart.items)[k := old(cart.items)[k].(quantity := Min(old(cart.items)[k].quantity + 1, old(cart.items)[k].stock))]
  {
    var line := cart.items[k];
    ghost var before := cart.items;
    cart.UpdateQuantity(line.id, line.quantity + 1);
    if line.quantity < 0 {
      RemoveIdAt(before, line.id, k);
    } else {
      forall i | 0 <= i < |before| ensures before[i].id == line.id <==> i == k {
        if i != k { assert before[i].id != before[k].id; }
      }
      assert cart.items == before[k := line.(quantity := Min(line.quantity + 1, line.stock))];
    }
  }
}
