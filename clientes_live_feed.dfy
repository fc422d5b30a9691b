/** clientes/hooks/useCatalogWebSocket.ts: the customer app's live stock
    feed. Unlike the sales-rep feed it opens one fixed URL and sends its
    filters as a message once the socket is open, and its close handler does
    not look at the close code. The socket and the timer are events, as in
    `VentasLiveFeed`; the messages sent are recorded in `sent`. */
module ClientesLiveFeed {
  import opened Common
  import opened Backoff
  import opened ClientesCatalogTypes

  const WsUrl: string := "wss://medisupply-backend.duckdns.org/venta/api/v1/catalog/items/ws"

  /** Section 7.4.1 of RFC 6455: 1005 is the code reported for a close
      frame that carried no status, which `close()` without arguments sends;
      1000 is a normal closure. */
  const NoStatusReceived: int := 1005
  const NormalClosure: int := 1000

  /** The hook's option defaults. */
  const DefaultPage: int := 1
  const DefaultSize: int := 50

  /** The metadata shown before the first message. */
  const InitialMeta: Meta := Meta(0, 1, 50, 0)

  /** The filter message `sendMessage({})` serializes. */
  datatype FilterMessage = FilterMessage(q: Option<string>, category: Option<string>, page: int, size: int)

  /** `{q: searchQuery || null, category: category || null, page, size}`:
      an empty filter is sent as `null`. */
  function BuildFilterMessage(searchQuery: string, category: string, page: int, size: int): (m: FilterMessage)
    ensures m.q.None? <==> searchQuery == ""
    ensures m.q.Some? ==> m.q.value == searchQuery
    ensures m.category.None? <==> category == ""
    ensures m.category.Some? ==> m.category.value == category
    ensures m.page == page && m.size == size
  {
    FilterMessage(
      if searchQuery != "" then Some(searchQuery) else None,
      if category != "" then Some(category) else None,
      page, size)
  }

  /** The message a first render with no options sends. */
  lemma DefaultFilterMessage()
    ensures BuildFilterMessage("", "", DefaultPage, DefaultSize) == FilterMessage(None, None, 1, 50)
  {
  }

  /** Whether `onclose` schedules a reconnect. The close code is an argument
      only to show that the answer does not depend on it. */
  function SchedulesReconnect(enabled: bool, attempts: nat, code: int): (b: bool)
    ensures b <==> enabled && attempts < MaxReconnectAttempts
  {
    enabled && attempts < MaxReconnectAttempts
  }

  /** The close code never matters: a normal closure, an abnormal one and the
      close the hook's own cleanup issues are treated alike. */
  lemma CloseCodeIgnored(enabled: bool, attempts: nat, code1: int, code2: int)
    ensures SchedulesReconnect(enabled, attempts, code1) == SchedulesReconnect(enabled, attempts, code2)
  {
  }

  /** One parsed frame of the feed, or text that does not parse. */
  datatype Frame = Frame(items: Option<seq<Producto>>, meta: Option<Meta>) | Malformed

  /** `readyState` of the socket in `wsRef`. */
  datatype ReadyState = Connecting | Open | Closed

  class Feed {
    // the hook's options
    var searchQuery: string
    var category: string
    var page: int
    var size: int
    var enabled: bool
    // the hook's state
    var productos: seq<Producto>
    var isConnected: bool
    var metadata: Meta
    // wsRef, and the filter messages sent over it
    var socket: Option<ReadyState>
    var sent: seq<FilterMessage>
    // reconnectAttemptsRef, and reconnectTimeoutRef as a pending timer with its delay
    var attempts: nat
    var pendingTimer: bool
    var timerDelay: int

    ghost predicate Valid()
      reads this
    {
      attempts <= MaxReconnectAttempts
      && (pendingTimer ==> attempts < MaxReconnectAttempts
                           && InitialReconnectDelay <= timerDelay <= MaxReconnectDelay)
    }

    constructor (enabled: bool, searchQuery: string, category: string, page: int, size: int)
      ensures Valid()
      ensures this.enabled == enabled && this.searchQuery == searchQuery && this.category == category
      ensures this.page == page && this.size == size
      ensures productos == [] && !isConnected && metadata == InitialMeta
      ensures socket.None? && sent == [] && attempts == 0 && !pendingTimer
    {
      this.enabled := enabled;
      this.searchQuery := searchQuery;
      this.category := category;
      this.page := page;
      this.size := size;
      productos := [];
      isConnected := false;
      metadata := InitialMeta;
      socket := None;
      sent := [];
      attempts := 0;
      pendingTimer := false;
      timerDelay := 0;
    }

    /** `sendMessage({})`: the current filters go out only over an open
        socket. */
    method SendMessage()
      requires Valid()
      modifies this
      ensures Valid()
      ensures socket == Some(Open) ==> sent == old(sent) + [BuildFilterMessage(searchQuery, category, page, size)]
      ensures socket != Some(Open) ==> sent == old(sent)
      ensures searchQuery == old(searchQuery) && category == old(category) && page == old(page) && size == old(size)
      ensures enabled == old(enabled) && productos == old(productos) && isConnected == old(isConnected)
      ensures metadata == old(metadata) && socket == old(socket) && attempts == old(attempts)
      ensures pendingTimer == old(pendingTimer) && timerDelay == old(timerDelay)
    {
      if socket == Some(Open) {
        sent := sent + [BuildFilterMessage(searchQuery, category, page, size)];
      }
    }

    /** `connect()`: nothing when disabled; a new socket, or, when creating
        it throws, a disconnected state. */
    method Connect(createFails: bool)
      requires Valid()
      modifies this
      ensures Valid()
      ensures enabled && !createFails ==> socket == Some(Connecting) && isConnected == old(isConnected)
      ensures enabled && createFails ==> socket == old(socket) && !isConnected
      ensures !enabled ==> socket == old(socket) && isConnected == old(isConnected)
      ensures searchQuery == old(searchQuery) && category == old(category) && page == old(page) && size == old(size)
      ensures enabled == old(enabled) && productos == old(productos) && metadata == old(metadata)
      ensures sent == old(sent) && attempts == old(attempts)
      ensures pendingTimer == old(pendingTimer) && timerDelay == old(timerDelay)
    {
      if !enabled {
        return;
      }
      if createFails {
        isConnected := false;
      } else {
        socket := Some(Connecting);
      }
    }

    /** `onopen`: connected, attempts back to 0, and the current filters sent
        once. */
    method OnOpen()
      requires Valid() && socket.Some?
      modifies this
      ensures Valid()
      ensures isConnected && attempts == 0 && socket == Some(Open)
      ensures sent == old(sent) + [BuildFilterMessage(searchQuery, category, page, size)]
      ensures searchQuery == old(searchQuery) && category == old(category) && page == old(page) && size == old(size)
      ensures enabled == old(enabled) && productos == old(productos) && metadata == old(metadata)
      ensures pendingTimer == old(pendingTimer) && timerDelay == old(timerDelay)
    {
      isConnected := true;
      attempts := 0;
      socket := Some(Open);
      SendMessage();
    }

    /** `onmessage`: `items` replaces the list and `meta` the metadata, each
        when present; a frame that does not parse changes nothing. */
    method OnMessage(f: Frame)
      requires Valid()
      modifies this
      ensures Valid()
      ensures f.Frame? && f.items.Some? ==> productos == f.items.value
      ensures f.Frame? && f.meta.Some? ==> metadata == f.meta.value
      ensures f.Malformed? || f.items.None? ==> productos == old(productos)
      ensures f.Malformed? || f.meta.None? ==> metadata == old(metadata)
      ensures searchQuery == old(searchQuery) && category == old(category) && page == old(page) && size == old(size)
      ensures enabled == old(enabled) && isConnected == old(isConnected) && socket == old(socket)
      ensures sent == old(sent) && attempts == old(attempts)
      ensures pendingTimer == old(pendingTimer) && timerDelay == old(timerDelay)
    {
      if f.Frame? {
        if f.items.Some? {
          productos := f.items.value;
        }
        if f.meta.Some? {
          metadata := f.meta.value;
        }
      }
    }

    /** `onerror`: always disconnected; the error is logged (`logged`) only
        once a reconnect is under way. */
    method OnError() returns (logged: bool)
      requires Valid()
      modifies this
      ensures Valid()
      ensures !isConnected
      ensures logged <==> attempts > 0
      ensures searchQuery == old(searchQuery) && category == old(category) && page == old(page) && size == old(size)
      ensures enabled == old(enabled) && productos == old(productos) && metadata == old(metadata)
      ensures socket == old(socket) && sent == old(sent) && attempts == old(attempts)
      ensures pendingTimer == old(pendingTimer) && timerDelay == old(timerDelay)
    {
      logged := attempts > 0;
      isConnected := false;
    }

    /** `onclose`: disconnected, and a reconnect timer with the backoff
        delay whenever the hook is enabled and attempts remain, whatever the
        code. `current` says whether the socket that closed is still the one
        in `wsRef`; the handler itself never touches `wsRef`. */
    method OnClose(code: int, current: bool)
      requires Valid()
      modifies this
      ensures Valid()
      ensures !isConnected
      ensures socket == if current && old(socket).Some? then Some(Closed) else old(socket)
      ensures SchedulesReconnect(enabled, attempts, code) ==> pendingTimer && timerDelay == ReconnectDelay(attempts)
      ensures !SchedulesReconnect(enabled, attempts, code) ==> pendingTimer == old(pendingTimer) && timerDelay == old(timerDelay)
      ensures searchQuery == old(searchQuery) && category == old(category) && page == old(page) && size == old(size)
      ensures enabled == old(enabled) && productos == old(productos) && metadata == old(metadata)
      ensures sent == old(sent) && attempts == old(attempts)
    {
      isConnected := false;
      if current && socket.Some? {
        socket := Some(Closed);
      }
      if SchedulesReconnect(enabled, attempts, code) {
        pendingTimer := true;
        timerDelay := ReconnectDelay(attempts);
      }
    }

    /** The reconnect timer fires: one more attempt is counted, then
        `connect()` runs. */
    method TimerFires(createFails: bool)
      requires Valid() && pendingTimer
      modifies this
      ensures Valid()
      ensures !pendingTimer && attempts == old(attempts) + 1
      ensures enabled && !createFails ==> socket == Some(Connecting) && isConnected == old(isConnected)
      ensures enabled && createFails ==> socket == old(socket) && !isConnected
      ensures !enabled ==> socket == old(socket) && isConnected == old(isConnected)
      ensures searchQuery == old(searchQuery) && category == old(category) && page == old(page) && size == old(size)
      ensures enabled == old(enabled) && productos == old(productos) && metadata == old(metadata)
      ensures sent == old(sent)
    {
      pendingTimer := false;
      attempts := attempts + 1;
      Connect(createFails);
    }

    /** The effect on `enabled`: connect when enabled. */
    method Mount(createFails: bool)
      requires Valid()
      modifies this
      ensures Valid()
      ensures enabled && !createFails ==> socket == Some(Connecting) && isConnected == old(isConnected)
      ensures enabled && createFails ==> socket == old(socket) && !isConnected
      ensures !enabled ==> socket == old(socket) && isConnected == old(isConnected)
      ensures searchQuery == old(searchQuery) && category == old(category) && page == old(page) && size == old(size)
      ensures enabled == old(enabled) && productos == old(productos) && metadata == old(metadata)
      ensures sent == old(sent) && attempts == old(attempts)
      ensures pendingTimer == old(pendingTimer) && timerDelay == old(timerDelay)
    {
      if enabled {
        Connect(createFails);
      }
    }

    /** That effect's cleanup: the pending timer is cleared and the socket is
        closed without a code and dropped from `wsRef`. Its close event
        arrives afterwards, through `OnClose`. */
    method Unmount()
      requires Valid()
      modifies this
      ensures Valid()
      ensures !pendingTimer && socket.None?
      ensures searchQuery == old(searchQuery) && category == old(category) && page == old(page) && size == old(size)
      ensures enabled == old(enabled) && productos == old(productos) && metadata == old(metadata)
      ensures isConnected == old(isConnected) && sent == old(sent) && attempts == old(attempts)
    {
      pendingTimer := false;
      socket := None;
    }

    /** The effect on the filters, which also runs when the connection
        state changes: when the render it belongs to showed the feed connected
        (`renderedConnected`), the filters are sent over an open socket. */
    method FilterEffect(renderedConnected: bool)
      requires Valid()
      modifies this
      ensures Valid()
      ensures renderedConnected && socket == Some(Open) ==>
        sent == old(sent) + [BuildFilterMessage(searchQuery, category, page, size)]
      ensures !renderedConnected || socket != Some(Open) ==> sent == old(sent)
      ensures searchQuery == old(searchQuery) && category == old(category) && page == old(page) && size == old(size)
      ensures enabled == old(enabled) && productos == old(productos) && metadata == old(metadata)
      ensures isConnected == old(isConnected) && socket == old(socket) && attempts == old(attempts)
      ensures pendingTimer == old(pendingTimer) && timerDelay == old(timerDelay)
    {
      if renderedConnected {
        SendMessage();
      }
    }

    /** A render with new options. `sendMessage`, and through it `connect`,
        depend on all four, so the connection effect runs again first: its
        cleanup clears the timer and closes and drops the socket, and, when
        enabled, it connects anew. The filter effect then finds no open socket
        and sends nothing: the new filters go out when the new socket opens.
        The closed socket's close event arrives later, through `OnClose` with
        `current` false. Options equal to the current ones re-run no
        effect. */
    method FiltersChanged(newSearch: string, newCategory: string, newPage: int, newSize: int, createFails: bool)
      requires Valid()
      modifies this
      ensures Valid()
      ensures searchQuery == newSearch && category == newCategory && page == newPage && size == newSize
      ensures sent == old(sent)
      ensures var moved := old(searchQuery) != newSearch || old(category) != newCategory
        || old(page) != newPage || old(size) != newSize;
        (!moved ==>
           (socket == old(socket) && isConnected == old(isConnected)
            && pendingTimer == old(pendingTimer) && timerDelay == old(timerDelay)))
        && (moved ==>
              (!pendingTimer
               && (enabled && !createFails ==> socket == Some(Connecting) && isConnected == old(isConnected))
               && (enabled && createFails ==> socket.None? && !isConnected)
               && (!enabled ==> socket.None? && isConnected == old(isConnected))))
      ensures enabled == old(enabled) && productos == old(productos) && metadata == old(metadata)
      ensures attempts == old(attempts)
    {
      if searchQuery == newSearch && category == newCategory && page == newPage && size == newSize {
        return;
      }
      var renderedConnected := isConnected;
      searchQuery := newSearch;
      category := newCategory;
      page := newPage;
      size := newSize;
      Unmount();
      Mount(createFails);
      FilterEffect(renderedConnected);
    }

    /** `refresh()`: resend the filters when connected, reconnect otherwise. */
    method Refresh(createFails: bool)
      requires Valid()
      modifies this
      ensures Valid()
      ensures old(isConnected) ==>
        (socket == old(socket) && isConnected
         && (socket == Some(Open) ==> sent == old(sent) + [BuildFilterMessage(searchQuery, category, page, size)])
         && (socket != Some(Open) ==> sent == old(sent)))
      ensures !old(isConnected) ==> sent == old(sent)
      ensures !old(isConnected) && enabled && !createFails ==> socket == Some(Connecting) && !isConnected
      ensures !old(isConnected) && enabled && createFails ==> socket == old(socket) && !isConnected
      ensures !old(isConnected) && !enabled ==> socket == old(socket) && !isConnected
      ensures searchQuery == old(searchQuery) && category == old(category) && page == old(page) && size == old(size)
      ensures enabled == old(enabled) && productos == old(productos) && metadata == old(metadata)
      ensures attempts == old(attempts) && pendingTimer == old(pendingTimer) && timerDelay == old(timerDelay)
    {
      if isConnected {
        SendMessage();
      } else {
        Connect(createFails);
      }
    }
  }

  /** The cleanup does not stop the feed: once the socket it closed reports
      its close (code 1005, no status), the still-enabled handler schedules a
      reconnect, although the cleanup had just cleared the timer. */
  method TeardownStillReconnects() returns (reconnects: bool, delay: int)
    ensures reconnects && delay == InitialReconnectDelay
  {
    var feed := new Feed(true, "", "", DefaultPage, DefaultSize);
    feed.Mount(false);
    feed.OnOpen();
    feed.Unmount();
    feed.OnClose(NoStatusReceived, false);
    reconnects, delay := feed.pendingTimer, feed.timerDelay;
  }

  /** Opening a socket sends the filters twice: once from the open handler,
      and once more from the filter effect, which runs again because the
      connection state changed. */
  method OpenSendsTwice() returns (sent: seq<FilterMessage>)
    ensures |sent| == 2 && sent[0] == sent[1] == BuildFilterMessage("", "", DefaultPage, DefaultSize)
  {
    var feed := new Feed(true, "", "", DefaultPage, DefaultSize);
    feed.Mount(false);
    feed.OnOpen();
    feed.FilterEffect(feed.isConnected);
    sent := feed.sent;
  }

  /** A new search while connected: nothing is sent at once, the socket
      closed by the cleanup still schedules a reconnect when its close
      arrives, and the new search goes out when the new socket opens. */
  method SearchReachesServerOnOpen() returns (last: FilterMessage, reconnects: bool)
    ensures last == FilterMessage(Some("ibuprofeno"), None, DefaultPage, DefaultSize)
    ensures reconnects
  {
    var feed := new Feed(true, "", "", DefaultPage, DefaultSize);
    feed.Mount(false);
    feed.OnOpen();
    feed.FiltersChanged("ibuprofeno", "", DefaultPage, DefaultSize, false);
    feed.OnClose(NoStatusReceived, false);
    reconnects := feed.pendingTimer;
    feed.OnOpen();
    last := feed.sent[|feed.sent| - 1];
  }
}
