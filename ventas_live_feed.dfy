/** ventas/hooks/useCatalogWebSocket.ts: the sales-rep app's live stock
    feed. The socket and the reconnect timer are events delivered to the
    hook: the socket opening, a message, an error, a close with its code,
    and the timer firing. The hook's refs and state become the fields of
    `Feed`. Close codes follow section 7.4.1 of RFC 6455. */
module VentasLiveFeed {
  import opened Common
  import opened Backoff
  import opened FormUrlEncoding
  import opened VentasCatalogTypes

  const WsUrl: string := "wss://medisupply-backend.duckdns.org/venta/api/v1/catalog/items/ws"

  /** Section 7.4.1 of RFC 6455: 1000 is a normal closure, 1006 an abnormal
      one (the connection dropped without a close frame). */
  const NormalClosure: int := 1000
  const AbnormalClosure: int := 1006

  /** The parameters `buildWebSocketUrl` appends, in order: `search`
      before `category`, each only when non-empty. */
  function QueryPairs(searchQuery: string, category: string): (pairs: seq<(string, string)>)
    ensures |pairs| <= 2
    ensures pairs == [] <==> searchQuery == "" && category == ""
    ensures searchQuery != "" ==> pairs[0] == ("search", searchQuery)
    ensures category != "" ==> pairs[|pairs| - 1] == ("category", category)
  {
    (if searchQuery != "" then [("search", searchQuery)] else [])
    + (if category != "" then [("category", category)] else [])
  }

  /** `buildWebSocketUrl()`: the feed URL, with a query string exactly when
      there is something to filter by. */
  function BuildWebSocketUrl(searchQuery: string, category: string): (url: string)
    ensures |url| == |WsUrl| <==> searchQuery == "" && category == ""
    ensures searchQuery != "" || category != "" ==>
      url == WsUrl + "?" + SerializePairs(QueryPairs(searchQuery, category))
  {
    var query := SerializePairs(QueryPairs(searchQuery, category));
    if query != "" then WsUrl + "?" + query else WsUrl
  }

  /** The bare feed URL is used exactly when neither filter is set. */
  lemma BareUrlIffNoFilters(searchQuery: string, category: string)
    ensures BuildWebSocketUrl(searchQuery, category) == WsUrl <==> searchQuery == "" && category == ""
  {
  }

  /** The parameter names are plain ASCII letters and pass unencoded. */
  lemma NamesUnencoded()
    ensures Encode("search") == "search" && Encode("category") == "category"
  {
    KeptCharsUnchanged("search");
    KeptCharsUnchanged("category");
  }

  /** With both filters set the query is `search=...&category=...`, search
      first. */
  lemma SearchPrecedesCategory(searchQuery: string, category: string)
    requires searchQuery != "" && category != ""
    ensures BuildWebSocketUrl(searchQuery, category)
      == WsUrl + "?" + ("search" + "=" + Encode(searchQuery) + "&" + ("category" + "=" + Encode(category)))
  {
    var pairs := QueryPairs(searchQuery, category);
    assert pairs == [("search", searchQuery), ("category", category)];
    assert pairs[1..] == [("category", category)];
    var s, c := Encode(searchQuery), Encode(category);
    var tail := SerializePairs(pairs[1..]);
    NamesUnencoded();
    assert tail == "category" + "=" + c;
    assert SerializePairs(pairs) == "search" + "=" + s + "&" + tail;
  }

  /** Whether the close handler schedules a reconnect: never after a normal
      closure, never once the attempts are used up. */
  function ShouldReconnect(code: int, attempts: nat): (b: bool)
    ensures code == NormalClosure ==> !b
    ensures code != NormalClosure ==> (b <==> attempts < MaxReconnectAttempts)
  {
    code != NormalClosure && attempts < MaxReconnectAttempts
  }

  /** How many reconnects a run of failures makes when every new connection
      closes again with the next code of `codes`, starting from `attempts`. */
  function FailedRun(attempts: nat, codes: seq<int>): (n: nat)
    requires attempts <= MaxReconnectAttempts
    ensures n <= MaxReconnectAttempts - attempts
    ensures n <= |codes|
    decreases |codes|
  {
    if codes == [] || !ShouldReconnect(codes[0], attempts) then 0
    else 1 + FailedRun(attempts + 1, codes[1..])
  }

  /** A connection that keeps dropping abnormally is retried exactly until the
      five attempts are spent. */
  lemma {:induction false} AbnormalRunUsesAllAttempts(attempts: nat, codes: seq<int>)
    requires attempts <= MaxReconnectAttempts
    requires |codes| >= MaxReconnectAttempts - attempts
    requires forall i :: 0 <= i < |codes| ==> codes[i] == AbnormalClosure
    ensures FailedRun(attempts, codes) == MaxReconnectAttempts - attempts
    decreases |codes|
  {
    if attempts < MaxReconnectAttempts {
      AbnormalRunUsesAllAttempts(attempts + 1, codes[1..]);
    }
  }

  /** The `product_update` map: every entry with the pushed product's id is
      replaced by it, the others are kept, in order. */
  function ReplaceById(productos: seq<Producto>, p: Producto): (r: seq<Producto>)
    ensures |r| == |productos|
    ensures forall i :: 0 <= i < |r| ==> r[i] == if productos[i].id == p.id then p else productos[i]
  {
    seq(|productos|, i requires 0 <= i < |productos| => if productos[i].id == p.id then p else productos[i])
  }

  /** An update for a product the list does not hold changes nothing. */
  lemma ReplaceUnknownId(productos: seq<Producto>, p: Producto)
    requires forall i :: 0 <= i < |productos| ==> productos[i].id != p.id
    ensures ReplaceById(productos, p) == productos
  {
  }

  /** Applying the same update twice is applying it once, and afterwards
      every entry with that id is the pushed product. */
  lemma ReplaceIdempotent(productos: seq<Producto>, p: Producto)
    ensures ReplaceById(ReplaceById(productos, p), p) == ReplaceById(productos, p)
    ensures forall i :: 0 <= i < |productos| && productos[i].id == p.id ==> ReplaceById(productos, p)[i] == p
  {
  }

  /** The message text of the socket-error report. */
  const ConnectionErrorText: string := "Error de conexión WebSocket"
  /** The text used when the server's error message is empty or missing. */
  const UnknownErrorText: string := "Error desconocido"

  /** The `error` the hook reports. */
  datatype FeedError =
    | Reported(message: string)   // `new Error(text)`
    | MalformedMessage            // the exception `JSON.parse` threw
    | SocketNotCreated            // the exception `new WebSocket` threw

  /** A parsed message by its `type`, or one that failed to parse. */
  datatype Message =
    | CatalogUpdate(data: Option<CatalogoResponse>)
    | ProductUpdate(product: Option<Producto>)
    | ErrorReport(error: Option<string>)
    | OtherType
    | Unparseable

  /** The error a server `error` message sets: its text, or the fallback
      when the text is missing or empty. */
  function ServerError(error: Option<string>): (e: FeedError)
    ensures Truthy(error) ==> e == Reported(error.value)
    ensures !Truthy(error) ==> e == Reported(UnknownErrorText)
  {
    if Truthy(error) then Reported(error.value) else Reported(UnknownErrorText)
  }

  class Feed {
    // the hook's parameters
    var searchQuery: string
    var category: string
    var enabled: bool
    // the hook's state
    var productos: seq<Producto>
    var pagination: Option<Pagination>
    var isConnected: bool
    var error: Option<FeedError>
    // wsRef: the URL of the socket it holds
    var socket: Option<string>
    // reconnectAttemptsRef
    var attempts: nat
    // reconnectTimeoutRef: a timer that has not fired yet, and its delay
    var pendingTimer: bool
    var timerDelay: int
    // lastParamsRef
    var lastSearch: string
    var lastCategory: string

    /** The attempts never exceed the budget, and while a timer is pending
        its firing still stays within it; its delay is a backoff delay. */
    ghost predicate Valid()
      reads this
    {
      attempts <= MaxReconnectAttempts
      && (pendingTimer ==> attempts < MaxReconnectAttempts
                           && InitialReconnectDelay <= timerDelay <= MaxReconnectDelay)
    }

    /** The first render: nothing connected, no timer, the parameters
        remembered as the last ones sent. */
    constructor (searchQuery: string, category: string, enabled: bool)
      ensures Valid()
      ensures this.searchQuery == searchQuery && this.category == category && this.enabled == enabled
      ensures productos == [] && pagination.None? && !isConnected && error.None?
      ensures socket.None? && attempts == 0 && !pendingTimer
      ensures lastSearch == searchQuery && lastCategory == category
    {
      this.searchQuery := searchQuery;
      this.category := category;
      this.enabled := enabled;
      productos := [];
      pagination := None;
      isConnected := false;
      error := None;
      socket := None;
      attempts := 0;
      pendingTimer := false;
      timerDelay := 0;
      lastSearch := searchQuery;
      lastCategory := category;
    }

    /** `connect()`: nothing when disabled; otherwise a socket on the URL for
        the current filters, or, when creating it throws, that error. */
    method Connect(createFails: bool)
      requires Valid()
      modifies this
      ensures Valid()
      ensures !enabled ==> socket == old(socket) && error == old(error)
      ensures enabled && !createFails ==> socket == Some(BuildWebSocketUrl(searchQuery, category)) && error == old(error)
      ensures enabled && createFails ==> socket == old(socket) && error == Some(SocketNotCreated)
      ensures searchQuery == old(searchQuery) && category == old(category) && enabled == old(enabled)
      ensures productos == old(productos) && pagination == old(pagination) && isConnected == old(isConnected)
      ensures attempts == old(attempts) && pendingTimer == old(pendingTimer) && timerDelay == old(timerDelay)
      ensures lastSearch == old(lastSearch) && lastCategory == old(lastCategory)
    {
      if !enabled {
        return;
      }
      if createFails {
        error := Some(SocketNotCreated);
      } else {
        socket := Some(BuildWebSocketUrl(searchQuery, category));
      }
    }

    /** `onopen`: connected, error cleared, attempts back to 0. */
    method OnOpen()
      requires Valid()
      modifies this
      ensures Valid()
      ensures isConnected && error.None? && attempts == 0
      ensures searchQuery == old(searchQuery) && category == old(category) && enabled == old(enabled)
      ensures productos == old(productos) && pagination == old(pagination) && socket == old(socket)
      ensures pendingTimer == old(pendingTimer) && timerDelay == old(timerDelay)
      ensures lastSearch == old(lastSearch) && lastCategory == old(lastCategory)
    {
      isConnected := true;
      error := None;
      attempts := 0;
    }

    /** `onmessage`. A `catalog_update` with data replaces the list and the
        pagination; a `product_update` with a product replaces the entries
        with its id; an `error` message reports its text; a message that
        does not parse reports the parse error; other types change nothing.
        The socket stays open in every case. */
    method OnMessage(m: Message)
      requires Valid()
      modifies this
      ensures Valid()
      ensures m.CatalogUpdate? && m.data.Some? ==>
        productos == m.data.value.items && pagination == m.data.value.pagination && error == old(error)
      ensures m.ProductUpdate? && m.product.Some? ==>
        productos == ReplaceById(old(productos), m.product.value) && pagination == old(pagination) && error == old(error)
      ensures m.ErrorReport? ==> productos == old(productos) && pagination == old(pagination) && error == Some(ServerError(m.error))
      ensures m.Unparseable? ==> productos == old(productos) && pagination == old(pagination) && error == Some(MalformedMessage)
      ensures m.OtherType? || (m.CatalogUpdate? && m.data.None?) || (m.ProductUpdate? && m.product.None?) ==>
        productos == old(productos) && pagination == old(pagination) && error == old(error)
      ensures searchQuery == old(searchQuery) && category == old(category) && enabled == old(enabled)
      ensures isConnected == old(isConnected) && socket == old(socket) && attempts == old(attempts)
      ensures pendingTimer == old(pendingTimer) && timerDelay == old(timerDelay)
      ensures lastSearch == old(lastSearch) && lastCategory == old(lastCategory)
    {
      match m
      case CatalogUpdate(data) =>
        if data.Some? {
          productos := data.value.items;
          pagination := data.value.pagination;
        }
      case ProductUpdate(product) =>
        if product.Some? {
          productos := ReplaceById(productos, product.value);
        }
      case ErrorReport(text) =>
        error := Some(ServerError(text));
      case OtherType =>
      case Unparseable =>
        error := Some(MalformedMessage);
    }

    /** `onerror`: reported only once a reconnect is under way. */
    method OnError()
      requires Valid()
      modifies this
      ensures Valid()
      ensures attempts > 0 ==> error == Some(Reported(ConnectionErrorText))
      ensures attempts == 0 ==> error == old(error)
      ensures searchQuery == old(searchQuery) && category == old(category) && enabled == old(enabled)
      ensures productos == old(productos) && pagination == old(pagination) && isConnected == old(isConnected)
      ensures socket == old(socket) && attempts == old(attempts)
      ensures pendingTimer == old(pendingTimer) && timerDelay == old(timerDelay)
      ensures lastSearch == old(lastSearch) && lastCategory == old(lastCategory)
    {
      if attempts > 0 {
        error := Some(Reported(ConnectionErrorText));
      }
    }

    /** `onclose`: disconnected; a reconnect timer is set with the backoff
        delay unless the closure was normal or the attempts are spent. */
    method OnClose(code: int)
      requires Valid()
      modifies this
      ensures Valid()
      ensures !isConnected
      ensures ShouldReconnect(code, attempts) ==> pendingTimer && timerDelay == ReconnectDelay(attempts)
      ensures !ShouldReconnect(code, attempts) ==> pendingTimer == old(pendingTimer) && timerDelay == old(timerDelay)
      ensures searchQuery == old(searchQuery) && category == old(category) && enabled == old(enabled)
      ensures productos == old(productos) && pagination == old(pagination) && error == old(error)
      ensures socket == old(socket) && attempts == old(attempts)
      ensures lastSearch == old(lastSearch) && lastCategory == old(lastCategory)
    {
      isConnected := false;
      if ShouldReconnect(code, attempts) {
        pendingTimer := true;
        timerDelay := ReconnectDelay(attempts);
      }
    }

    /** The reconnect timer fires: one more attempt is counted, then
        `connect()` runs. */
    method TimerFires(createFails: bool)
      requires Valid() && pendingTimer
      modifies this
      ensures Valid()
      ensures !pendingTimer && attempts == old(attempts) + 1
      ensures enabled && !createFails ==> socket == Some(BuildWebSocketUrl(searchQuery, category))
      ensures enabled && createFails ==> socket == old(socket) && error == Some(SocketNotCreated)
      ensures !enabled ==> socket == old(socket) && error == old(error)
      ensures enabled && !createFails ==> error == old(error)
      ensures searchQuery == old(searchQuery) && category == old(category) && enabled == old(enabled)
      ensures productos == old(productos) && pagination == old(pagination) && isConnected == old(isConnected)
      ensures lastSearch == old(lastSearch) && lastCategory == old(lastCategory)
    {
      pendingTimer := false;
      attempts := attempts + 1;
      Connect(createFails);
    }

    /** `refresh()`: the open socket is closed normally (so its close
        handler schedules nothing), the attempts are reset and a new
        connection is made. */
    method Refresh(createFails: bool)
      requires Valid()
      modifies this
      ensures Valid()
      ensures attempts == 0
      ensures pendingTimer == old(pendingTimer) && timerDelay == old(timerDelay)
      ensures old(socket).Some? ==> !isConnected
      ensures old(socket).None? ==> isConnected == old(isConnected)
      ensures enabled && !createFails ==> socket == Some(BuildWebSocketUrl(searchQuery, category)) && error == old(error)
      ensures enabled && createFails ==> socket == old(socket) && error == Some(SocketNotCreated)
      ensures !enabled ==> socket == old(socket) && error == old(error)
      ensures searchQuery == old(searchQuery) && category == old(category) && enabled == old(enabled)
      ensures productos == old(productos) && pagination == old(pagination)
      ensures lastSearch == old(lastSearch) && lastCategory == old(lastCategory)
    {
      if socket.Some? {
        OnClose(NormalClosure);
      }
      attempts := 0;
      Connect(createFails);
    }

    /** The effect that runs on mount: connect when enabled. */
    method Mount(createFails: bool)
      requires Valid()
      modifies this
      ensures Valid()
      ensures enabled && !createFails ==> socket == Some(BuildWebSocketUrl(searchQuery, category)) && error == old(error)
      ensures enabled && createFails ==> socket == old(socket) && error == Some(SocketNotCreated)
      ensures !enabled ==> socket == old(socket) && error == old(error)
      ensures attempts == old(attempts) && pendingTimer == old(pendingTimer) && isConnected == old(isConnected)
      ensures searchQuery == old(searchQuery) && category == old(category) && enabled == old(enabled)
      ensures productos == old(productos) && pagination == old(pagination)
      ensures lastSearch == old(lastSearch) && lastCategory == old(lastCategory)
    {
      if !enabled {
        return;
      }
      Connect(createFails);
    }

    /** That effect's cleanup: the pending timer is cleared and the socket
        closed normally, so no reconnect is left behind. */
    method Unmount()
      requires Valid()
      modifies this
      ensures Valid()
      ensures !pendingTimer
      ensures old(socket).Some? ==> !isConnected
      ensures old(socket).None? ==> isConnected == old(isConnected)
      ensures socket == old(socket) && attempts == old(attempts) && error == old(error)
      ensures searchQuery == old(searchQuery) && category == old(category) && enabled == old(enabled)
      ensures productos == old(productos) && pagination == old(pagination)
      ensures lastSearch == old(lastSearch) && lastCategory == old(lastCategory)
    {
      pendingTimer := false;
      if socket.Some? {
        OnClose(NormalClosure);
      }
    }

    /** The effect on the filters: when the render it belongs to showed the
        feed enabled and connected (`renderedConnected`, the state value that
        render read), a change from the last filters sent records them and
        refreshes. */
    method ParamsEffect(renderedConnected: bool, createFails: bool)
      requires Valid()
      modifies this
      ensures Valid()
      ensures var refreshes := enabled && renderedConnected
        && (old(lastSearch) != searchQuery || old(lastCategory) != category);
        (refreshes ==>
           (lastSearch == searchQuery && lastCategory == category && attempts == 0
            && (!createFails ==> socket == Some(BuildWebSocketUrl(searchQuery, category)) && error == old(error))
            && (createFails ==> socket == old(socket) && error == Some(SocketNotCreated))
            && (old(socket).Some? ==> !isConnected)
            && (old(socket).None? ==> isConnected == old(isConnected))))
        && (!refreshes ==>
              (lastSearch == old(lastSearch) && lastCategory == old(lastCategory)
               && socket == old(socket) && attempts == old(attempts) && isConnected == old(isConnected)
               && error == old(error)))
      ensures searchQuery == old(searchQuery) && category == old(category) && enabled == old(enabled)
      ensures productos == old(productos) && pagination == old(pagination)
      ensures pendingTimer == old(pendingTimer) && timerDelay == old(timerDelay)
    {
      if !enabled || !renderedConnected {
        return;
      }
      if lastSearch != searchQuery || lastCategory != category {
        lastSearch := searchQuery;
        lastCategory := category;
        Refresh(createFails);
      }
    }

    /** A render with new filters. `connect` depends on them, so while
        enabled the connection effect runs again first: its cleanup clears
        the timer and closes the socket normally, and it connects on the new
        URL. The filter effect then sees the connection state of the render
        before, and when that was connected it refreshes, closing the socket
        just opened and opening another on the same URL. Filters equal to the
        current ones re-run no effect. */
    method FiltersChanged(newSearch: string, newCategory: string, createFails: bool)
      requires Valid()
      modifies this
      ensures Valid()
      ensures searchQuery == newSearch && category == newCategory && enabled == old(enabled)
      ensures var moved := old(searchQuery) != newSearch || old(category) != newCategory;
        (!moved || !enabled ==>
           (socket == old(socket) && isConnected == old(isConnected) && error == old(error)
            && attempts == old(attempts) && pendingTimer == old(pendingTimer) && timerDelay == old(timerDelay)
            && lastSearch == old(lastSearch) && lastCategory == old(lastCategory)))
        && (moved && enabled ==>
              (!pendingTimer
               && (old(socket).Some? ==> !isConnected)
               && (!createFails ==> socket == Some(BuildWebSocketUrl(newSearch, newCategory)) && error == old(error))
               && (createFails ==> socket == old(socket) && error == Some(SocketNotCreated))))
      ensures var refreshes := enabled && old(isConnected)
        && (old(searchQuery) != newSearch || old(category) != newCategory)
        && (old(lastSearch) != newSearch || old(lastCategory) != newCategory);
        (refreshes ==> lastSearch == newSearch && lastCategory == newCategory && attempts == 0)
        && (!refreshes ==> lastSearch == old(lastSearch) && lastCategory == old(lastCategory) && attempts == old(attempts))
      ensures productos == old(productos) && pagination == old(pagination)
    {
      if searchQuery == newSearch && category == newCategory {
        return;
      }
      var renderedConnected := isConnected;
      searchQuery := newSearch;
      category := newCategory;
      if !enabled {
        return;
      }
      Unmount();
      Mount(createFails);
      ParamsEffect(renderedConnected, createFails);
    }
  }
}
