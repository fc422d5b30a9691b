/** The hybrid catalogue hooks (ventas/hooks/useCatalogWithWebSocket.ts and
    clientes/hooks/useCatalogWithWebSocket.ts): three HTTP queries are always
    mounted, one of them is the active one, and the live feed's data replaces
    it whenever the feed is enabled, connected and non-empty. */
module CatalogSource {
  import opened Common

  /** The three HTTP queries. */
  datatype HttpSource = SearchResults | CategoryResults | FullCatalog

  /** The state of one react-query query. */
  datatype QueryState<D, E> = QueryState(data: Option<D>, isLoading: bool, error: Option<E>)

  /** What `refetch` does. */
  datatype Refetch = RefreshSocket | RefetchHttp(source: HttpSource)

  /** What the hook returns. */
  datatype HybridView<D, E> = HybridView(
    data: Option<D>, isLoading: bool, error: Option<E>, refetch: Refetch,
    isConnected: bool, isUsingWebSocket: bool)

  /** `activeHttpQuery`: search results when there is a search, else the
      category results when a category is chosen, else the whole catalogue. */
  function ActiveHttpSource(searchQuery: string, category: string): (s: HttpSource)
    ensures s == SearchResults <==> searchQuery != ""
    ensures s == CategoryResults <==> searchQuery == "" && category != ""
    ensures s == FullCatalog <==> searchQuery == "" && category == ""
  {
    if searchQuery != "" then SearchResults
    else if category != "" then CategoryResults
    else FullCatalog
  }

  function Pick<D, E>(s: HttpSource, search: QueryState<D, E>, byCategory: QueryState<D, E>, all: QueryState<D, E>): (q: QueryState<D, E>)
    ensures q == search || q == byCategory || q == all
    ensures s == SearchResults ==> q == search
    ensures s == CategoryResults ==> q == byCategory
    ensures s == FullCatalog ==> q == all
  {
    match s
    case SearchResults => search
    case CategoryResults => byCategory
    case FullCatalog => all
  }

  /** `shouldUseWebSocket`: the feed's data is authoritative when the feed is
      enabled, connected and holds at least one product. */
  predicate ShouldUseWebSocket(enabled: bool, connected: bool, count: nat)
  {
    enabled && connected && count > 0
  }

  /** The category query of the sales-rep hook: keyed by the category, or the
      placeholder `ANTIBIOTICS` when none is chosen, and enabled only when a
      category is chosen. */
  function VentasCategoryQuery(category: string): (r: (string, bool))
    ensures r.1 <==> category != ""
    ensures r.1 ==> r.0 == category
    ensures !r.1 ==> r.0 == "ANTIBIOTICS"
  {
    (if category != "" then category else "ANTIBIOTICS", category != "")
  }

  /** The sales-rep hook. `wsData` is the feed's list with its pagination; when
      the feed is authoritative it is the data, `isLoading` is false (the
      hook's `!connected && empty` cannot hold then), the error is the feed's
      and `refetch` refreshes the feed; otherwise all four come from the
      active HTTP query. */
  function VentasHybrid<D, E>(
    searchQuery: string, category: string, enabled: bool,
    wsData: D, wsCount: nat, wsConnected: bool, wsError: Option<E>,
    search: QueryState<D, E>, byCategory: QueryState<D, E>, all: QueryState<D, E>): (v: HybridView<D, E>)
    ensures v.isUsingWebSocket <==> enabled && wsConnected && wsCount > 0
    ensures v.isConnected == wsConnected
    ensures v.isUsingWebSocket ==>
      v.data == Some(wsData) && !v.isLoading && v.error == wsError && v.refetch == RefreshSocket
    ensures !v.isUsingWebSocket ==>
      var q := Pick(ActiveHttpSource(searchQuery, category), search, byCategory, all);
      v.data == q.data && v.isLoading == q.isLoading && v.error == q.error
      && v.refetch == RefetchHttp(ActiveHttpSource(searchQuery, category))
  {
    var source := ActiveHttpSource(searchQuery, category);
    var active := Pick(source, search, byCategory, all);
    var useWs := ShouldUseWebSocket(enabled, wsConnected, wsCount);
    HybridView(
      if useWs then Some(wsData) else active.data,
      if useWs then !wsConnected && wsCount == 0 else active.isLoading,
      if useWs then wsError else active.error,
      if useWs then RefreshSocket else RefetchHttp(source),
      wsConnected,
      useWs)
  }

  /** The customer hook. The same selection, except that the feed reports no
      error of its own: while it is authoritative the error is `null`. */
  function ClientesHybrid<D, E>(
    searchQuery: string, category: string, useWebSocket: bool,
    wsData: D, wsCount: nat, wsConnected: bool,
    search: QueryState<D, E>, byCategory: QueryState<D, E>, all: QueryState<D, E>): (v: HybridView<D, E>)
    ensures v.isUsingWebSocket <==> useWebSocket && wsConnected && wsCount > 0
    ensures v.isConnected == wsConnected
    ensures v.isUsingWebSocket ==>
      v.data == Some(wsData) && !v.isLoading && v.error.None? && v.refetch == RefreshSocket
    ensures !v.isUsingWebSocket ==>
      var q := Pick(ActiveHttpSource(searchQuery, category), search, byCategory, all);
      v.data == q.data && v.isLoading == q.isLoading && v.error == q.error
      && v.refetch == RefetchHttp(ActiveHttpSource(searchQuery, category))
  {
    var source := ActiveHttpSource(searchQuery, category);
    var active := Pick(source, search, byCategory, all);
    var useWs := ShouldUseWebSocket(useWebSocket, wsConnected, wsCount);
    HybridView(
      if useWs then Some(wsData) else active.data,
      !useWs && active.isLoading,
      if !useWs then active.error else None,
      if useWs then RefreshSocket else RefetchHttp(source),
      wsConnected,
      useWs)
  }

  /** The two hooks pick the same data, loading flag and refetch target; they
      differ only in the error shown while the feed is authoritative. */
  lemma HybridsAgree<D, E>(
    searchQuery: string, category: string, enabled: bool,
    wsData: D, wsCount: nat, wsConnected: bool, wsError: Option<E>,
    search: QueryState<D, E>, byCategory: QueryState<D, E>, all: QueryState<D, E>)
    ensures var v := VentasHybrid(searchQuery, category, enabled, wsData, wsCount, wsConnected, wsError, search, byCategory, all);
            var c := ClientesHybrid(searchQuery, category, enabled, wsData, wsCount, wsConnected, search, byCategory, all);
            v.data == c.data && v.isLoading == c.isLoading && v.refetch == c.refetch
            && v.isUsingWebSocket == c.isUsingWebSocket
            && (v.error != c.error ==> v.isUsingWebSocket && wsError.Some?)
  {
  }

  /** A disconnected or empty feed never hides the HTTP data: whatever the
      filters, the view shows the active query's data. */
  lemma FallsBackToHttp<D, E>(
    searchQuery: string, category: string, enabled: bool,
    wsData: D, wsCount: nat, wsConnected: bool, wsError: Option<E>,
    search: QueryState<D, E>, byCategory: QueryState<D, E>, all: QueryState<D, E>)
    requires !wsConnected || wsCount == 0 || !enabled
    ensures VentasHybrid(searchQuery, category, enabled, wsData, wsCount, wsConnected, wsError, search, byCategory, all).data
      == Pick(ActiveHttpSource(searchQuery, category), search, byCategory, all).data
  {
  }
}
