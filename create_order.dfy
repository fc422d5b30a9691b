/** The order-creation mutations of both apps (ventas/hooks/useCreateOrder.ts and
    clientes/hooks/useCreateOrder.ts). Both wrap the same body for the
    backend-for-frontend; they differ in the idempotency key's form, which is
    a parameter here, and in the headers sent. */
module CreateOrder {
  import opened Common

  datatype OrderLine = OrderLine(sku: string, qty: int)

  /** `CreateOrderPayload`: the screen's order. */
  datatype CreateOrderPayload = CreateOrderPayload(
    customerId: string, createdByRole: string, source: string, items: seq<OrderLine>)

  /** The `body` of the request: only the customer and the lines. */
  datatype OrderBody = OrderBody(customerId: string, items: seq<OrderLine>)

  type Header = (string, string)

  datatype Request = Request(body: OrderBody, headers: seq<Header>)

  /** `bffPayload.body`: the customer id, and the lines mapped one to one, in
      order, keeping `sku` and `qty`. */
  function ToBody(p: CreateOrderPayload): (b: OrderBody)
    ensures b.customerId == p.customerId
    ensures |b.items| == |p.items|
    ensures forall i :: 0 <= i < |b.items| ==> b.items[i].sku == p.items[i].sku && b.items[i].qty == p.items[i].qty
  {
    OrderBody(p.customerId, seq(|p.items|, i requires 0 <= i < |p.items| => OrderLine(p.items[i].sku, p.items[i].qty)))
  }

  /** The role and source are not forwarded: two orders that differ only in
      them produce the same body. */
  lemma RoleAndSourceDropped(p: CreateOrderPayload, role: string, source: string)
    ensures ToBody(p.(createdByRole := role, source := source)) == ToBody(p)
  {
  }

  /** The body determines the customer and the lines: distinct orders for
      the same role and source give distinct bodies. */
  lemma ToBodyInjective(p: CreateOrderPayload, q: CreateOrderPayload)
    requires p.createdByRole == q.createdByRole && p.source == q.source
    requires ToBody(p) == ToBody(q)
    ensures p == q
  {
    assert |p.items| == |q.items|;
    forall i | 0 <= i < |p.items| ensures p.items[i] == q.items[i] {
      assert ToBody(p).items[i] == ToBody(q).items[i];
    }
  }

  /** The sales-rep request: the body and only the idempotency key. */
  function VentasRequest(p: CreateOrderPayload, key: string): (r: Request)
    ensures r.body == ToBody(p)
    ensures r.headers == [("Idempotency-Key", key)]
  {
    Request(ToBody(p), [("Idempotency-Key", key)])
  }

  /** The customer request: the key plus JSON content type and accept. */
  function ClientesRequest(p: CreateOrderPayload, key: string): (r: Request)
    ensures r.body == ToBody(p)
    ensures |r.headers| == 3 && r.headers[0] == ("Idempotency-Key", key)
    ensures ("Content-Type", "application/json") in r.headers && ("Accept", "application/json") in r.headers
  {
    Request(ToBody(p), [("Idempotency-Key", key), ("Content-Type", "application/json"), ("Accept", "application/json")])
  }

  /** The two apps send the same body for the same order. */
  lemma SameBodyBothApps(p: CreateOrderPayload, k1: string, k2: string)
    ensures VentasRequest(p, k1).body == ClientesRequest(p, k2).body
  {
  }

  /** The outcome of the POST: the response data, or the error it raised. */
  datatype PostOutcome<T, E> = Responded(data: T) | Raised(error: E)

  /** `mutationFn` of the sales-rep app: one POST with the body and key; the
      response data is returned, and an error is rethrown unchanged after it
      is logged. */
  method VentasMutation<T, E>(p: CreateOrderPayload, key: string, post: PostOutcome<T, E>)
    returns (result: Result<T, E>, sent: seq<Request>)
    ensures sent == [VentasRequest(p, key)]
    ensures post.Responded? ==> result == Ok(post.data)
    ensures post.Raised? ==> result == Err(post.error)
  {
    sent := [VentasRequest(p, key)];
    match post
    case Responded(data) => result := Ok(data);
    case Raised(error) => result := Err(error);
  }

  /** `mutationFn` of the customer app: one POST with the body and the three
      headers; an error propagates as it came. */
  method ClientesMutation<T, E>(p: CreateOrderPayload, key: string, post: PostOutcome<T, E>)
    returns (result: Result<T, E>, sent: seq<Request>)
    ensures sent == [ClientesRequest(p, key)]
    ensures post.Responded? ==> result == Ok(post.data)
    ensures post.Raised? ==> result == Err(post.error)
  {
    sent := [ClientesRequest(p, key)];
    match post
    case Responded(data) => result := Ok(data);
    case Raised(error) => result := Err(error);
  }
}
