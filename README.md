# MediSupply mobile apps — a verified model of their core logic

MediSupply ships two Expo / React-Native apps:

- `ventas`, for sales representatives;
- `clientes`, for the pharmacies and clinics that order from them.

This project models the self-contained logic underneath their screens in Dafny and proves what that logic promises:

- **Shopping carts.** `CartLines` holds the line-list logic that both `cartStore.ts` copies share. `SharedCart.CartStore` is the store itself, whose actions reassign `items` and `isOpen`. `VentasCart` and `ClientesCart` are the per-app selectors, which differ in the shipping rule.
- **Environment resolution.** `Deployment` holds the environment tags, the local host rule and the service ports. `VentasBaseUrl` and `ClientesBaseUrl` are the two resolvers, which route services to different BFFs (backend-for-frontend services). `ApkSimulation` is the forced-APK flag with its headers and timeout.
- **Live catalogue feeds.**
  - `Backoff` is the reconnect delay `min(1000·2^attempts, 30000)`, with at most 5 attempts.
  - `FormUrlEncoding` is the `application/x-www-form-urlencoded` serializer of the WHATWG URL Standard (section 5.2), which `URLSearchParams` uses.
  - `VentasLiveFeed.Feed` and `ClientesLiveFeed.Feed` are the WebSocket hooks. Their socket and reconnect timer are abstracted into events: open, message, error, close(code), timer fired, refresh, mount, unmount and parameter change.
  - `CatalogSource` is the hybrid choice between socket data and the three HTTP queries.
- **Debug log buffers.** `VentasLogger.Logger` is newest-first, with typed entries. `ClientesLogger.Logger` is oldest-first, with string entries. Both keep at most 500 entries.
- **Session stores.** `VentasAuth.AuthStore` and `ClientesAuth.AuthStore` share `AuthSession` (the user record and the merge done by `updateUser`). The clientes store also holds the API `Authorization` header as abstract state.
- **Small rules.**
  - `ClientesQueries`: the retry, `enabled` and paging rules of `ventas/hooks/useClientes.ts`.
  - `OrderStatus`: the order-status badge lookup.
  - `CreateOrder`: the order body and headers of both `useCreateOrder` hooks.
- **Screens.**
  - `CheckoutScreen`: the ventas cart summary.
  - `CatalogScreen`: the ventas catalogue, with its quantity picker.
  - `RegisterScreen`: clientes registration.
  - `LoginScreen`: ventas sign-in.
  - `VisitScreen`: ventas visit registration.
  - `Common` holds the JavaScript string behaviour these screens rely on: truthiness, `trim`, `includes`, ASCII case mapping and `String(n)`.

Prices are exact `real`s, quantities are `int`s, and strings are `seq<char>`.

Clocks, random keys, storage reads, picker results, parsed JSON and request outcomes are not computed. They are parameters of the operations that use them. Alerts, navigation and sent requests are returned as values.

Several behaviours of the code are stated as lemmas, as they are, rather than corrected:

- A `LOG` entry that mentions `ERROR` counts as an error in the clientes log stats.
- A ventas network *attempt* counts as a network error.
- The clientes socket reconnects even after the close issued at teardown.
- A failed clientes session restore keeps the session.
- The catalogue's `addToCart` helper would give a product without an inventory summary a cart line with quantity 0. The screen never calls it for such a product.
- A ventas filter change while connected opens two sockets in a row.
- Every clientes socket sends its filters twice on opening: once from the open handler and once from the filter effect.
- After an app restart, ventas `initialize` marks the rehydrated session unauthenticated. Clientes `initialize` leaves it without an `Authorization` header. In both cases the token is persisted inside `state`, not at the top level where `initialize` looks for it.
- A visit is always filed under customer 200.

## Model

| member | source | states |
|---|---|---|
| CartLines.FindIndex | ventas/store/cartStore.ts:44 | the index found is the first line with that id, and there is none exactly when no line has the id |
| CartLines.FindIndexUnique | ventas/store/cartStore.ts:44 | with pairwise distinct ids, the line found is the one line carrying the id |
| CartLines.AddLine | ventas/store/cartStore.ts:42-62 | adding keeps one line per id: a known id keeps the length, a new id appends one line; other lines, every line's id and every line's captured stock are unchanged; distinct ids and quantity ≤ stock are preserved |
| CartLines.AddLineExisting | ventas/store/cartStore.ts:49-53 | a known id's line becomes `min(old + added, stored stock)`, using the stock captured when the line was created, and nothing else changes |
| CartLines.AddLineNew | ventas/store/cartStore.ts:55-59 | a new id is appended with quantity `min(quantity, stock)`, so a product with stock 0 gets a line with quantity 0 |
| CartLines.RemoveId | ventas/store/cartStore.ts:64-68 | removal never lengthens the cart, and an absent id leaves it unchanged |
| CartLines.RemoveIdMembers | ventas/store/cartStore.ts:64-68 | the lines kept are exactly the lines whose id differs |
| CartLines.RemoveIdKeepsStock | ventas/store/cartStore.ts:64-68 | removal preserves quantity ≤ stock |
| CartLines.RemoveIdKeepsUnique | ventas/store/cartStore.ts:64-68 | removal preserves distinct ids |
| CartLines.RemoveIdConcat | ventas/store/cartStore.ts:64-68 | removal works line by line and keeps the order |
| CartLines.RemoveIdAt | ventas/store/cartStore.ts:64-68 | with distinct ids, removing the id of line k deletes exactly line k and keeps the rest in order |
| CartLines.SetQuantity | ventas/store/cartStore.ts:76-82 | only the lines with that id change, to `min(q, stock)`; the others are untouched |
| CartLines.UpdateLines | ventas/store/cartStore.ts:70-83 | a positive quantity keeps length and ids; an unknown id changes nothing; distinct ids and quantity ≤ stock are preserved |
| CartLines.RunWellFormed | ventas/store/cartStore.ts:42-83 | from any well-formed cart, including the empty one, every sequence of add, remove and update actions keeps ids distinct and every quantity ≤ its stock |
| CartLines.TotalItemsBounds | ventas/store/cartStore.ts:94-96 | the item count of lines without negative quantities is never negative and is at least every line's quantity |
| CartLines.SubtotalNonNegative | ventas/store/cartStore.ts:104-106 | the subtotal of lines without negative prices or quantities is never negative |
| CartLines.SumsAppend | ventas/store/cartStore.ts:94-106 | appending a line adds its quantity to the item count and its price × quantity to the subtotal |
| CartLines.SumsReplace | ventas/store/cartStore.ts:94-106 | replacing a line changes the item count and the subtotal by exactly that line's difference |
| CartLines.SumsDelete | ventas/store/cartStore.ts:94-106 | deleting a line subtracts exactly its quantity and its price × quantity |
| SharedCart.CartStore.constructor | ventas/store/cartStore.ts:36-39 | a new store is empty and closed |
| SharedCart.CartStore.AddItem | ventas/store/cartStore.ts:42-62 | the new items are `AddLine` of the old ones; other lines and `isOpen` are unchanged; the store invariant (distinct ids, quantity ≤ stock) is kept |
| SharedCart.CartStore.RemoveItem | ventas/store/cartStore.ts:64-68 | the new items are the old ones without that id, which is then absent |
| SharedCart.CartStore.UpdateQuantity | ventas/store/cartStore.ts:70-83 | a quantity ≤ 0 acts exactly as `removeItem`; otherwise only the matching line changes, to `min(q, stock)` |
| SharedCart.CartStore.ClearCart | ventas/store/cartStore.ts:85-87 | the items become empty and `isOpen` is unchanged |
| SharedCart.CartStore.ToggleCart | ventas/store/cartStore.ts:89-91 | `isOpen` flips and the items are unchanged |
| VentasCart.ItemQuantity | ventas/store/cartStore.ts:114-117 | the quantity of the line with that id, or 0 when no line has it |
| VentasCart.Shipping | ventas/store/cartStore.ts:108-112 | shipping is free exactly when the subtotal exceeds 100, and 10 otherwise |
| VentasCart.TotalPrice | ventas/store/cartStore.ts:98-102 | the total is the subtotal plus the ventas shipping |
| VentasCart.EmptyCartTotal | ventas/store/cartStore.ts:94-112 | an empty cart has no items, subtotal 0 and total 10 |
| VentasCart.TotalDropsAtThreshold | ventas/store/cartStore.ts:108-112 | a cart just above 100 (below 110) costs less in total than one at exactly 100 |
| VentasCart.AddItemQuantity | ventas/store/cartStore.ts:42-62 | after adding, the quantity read back is `min(old + added, stored stock)` for a known id and `min(quantity, stock)` for a new one |
| VentasCart.AddItemTotalItems | ventas/store/cartStore.ts:94-96 | adding changes the item count by exactly the change of that one line |
| VentasCart.AddTwiceCoalesces | ventas/store/cartStore.ts:42-62 | adding the same product twice (2 then 3, stock 4) gives one line of quantity 4 |
| ClientesCart.Shipping | clientes/store/cartStore.ts:108-111 | shipping is 10 exactly when the subtotal is positive, and 0 otherwise |
| ClientesCart.TotalPrice | clientes/store/cartStore.ts:98-102 | the total is the subtotal plus the clientes shipping |
| ClientesCart.ItemById | clientes/store/cartStore.ts:113-115 | the line returned carries the id and is in the cart; there is none exactly when no line has the id; with distinct ids it is that id's line |
| ClientesCart.EmptyCartTotal | clientes/store/cartStore.ts:94-111 | an empty cart has no items, subtotal 0 and total 0 |
| ClientesCart.SubtotalNonNegative | clientes/store/cartStore.ts:98-111 | with non-negative prices and quantities the subtotal is ≥ 0, and the total is 0 or subtotal + 10 |
| ClientesCart.AddItemFindsProduct | clientes/store/cartStore.ts:42-62 | after adding, the product's line can be found: a new line for a new id, the merged line for a known one |
| ClientesCart.RemoveItemForgetsProduct | clientes/store/cartStore.ts:64-68 | after removal no line with that id is found |
| Deployment.EnvName | ventas/config/baseUrl.ts:41-44 | every environment has a non-empty name |
| Deployment.ParseOverride | ventas/config/baseUrl.ts:41-44 | an override is recognised exactly when it names `local`, `aws` or `production`; any other value is ignored |
| Deployment.ParseEnvName | ventas/config/baseUrl.ts:41-44 | each environment's name is recognised as that environment |
| Deployment.LocalHost | ventas/config/baseUrl.ts:59-65 | the local host is `http://localhost` on iOS, `http://10.0.2.2` on Android, and otherwise `http://` + the configured LAN host, defaulting to `10.189.117.176` |
| Deployment.Port | ventas/config/baseUrl.ts:78-90 | each service has a four-digit port |
| Deployment.PortsDistinct | ventas/config/baseUrl.ts:78-90 | the four service ports are distinct |
| Deployment.LocalUrlInjective | ventas/config/baseUrl.ts:78-90 | two services never share a local URL |
| VentasBaseUrl.Table | ventas/config/baseUrl.ts:18-35 | every non-local BFF base is an `https://` URL |
| VentasBaseUrl.CurrentEnvironment | ventas/config/baseUrl.ts:39-53 | a valid override is returned as it is; otherwise a release build resolves to production and a dev build to local |
| VentasBaseUrl.ApiHost | ventas/config/baseUrl.ts:56-71 | local uses the platform host; aws and production use `bffVenta`; the host is `http://` exactly in local |
| VentasBaseUrl.ServiceUrl | ventas/config/baseUrl.ts:74-106 | local is host + ":" + port; remotely, `cliente` is `bffCliente` with no path, and the other services are `bffVenta` + `/api/v1/<service>` |
| VentasBaseUrl.OverrideWins | ventas/config/baseUrl.ts:41-44 | a valid override decides the environment whatever the build mode |
| VentasBaseUrl.AwsMatchesProduction | ventas/config/baseUrl.ts:18-35 | every service and the API host resolve the same under aws and production |
| VentasBaseUrl.ServiceUrlInjective | ventas/config/baseUrl.ts:74-106 | two services never resolve to the same URL |
| VentasBaseUrl.RemoteIsHttps | ventas/config/baseUrl.ts:91-106 | outside local every service URL starts with `https://` |
| ClientesBaseUrl.Table | clientes/config/baseUrl.ts:19-36 | every non-local BFF base starts with the backend's `https://` root |
| ClientesBaseUrl.CurrentEnvironment | clientes/config/baseUrl.ts:40-59 | a valid override wins; otherwise APK mode gives production and anything else local |
| ClientesBaseUrl.ApiHost | clientes/config/baseUrl.ts:63-77 | local uses the platform host; remotely the host is `bffCliente`; `http://` exactly in local |
| ClientesBaseUrl.BffPath | clientes/config/baseUrl.ts:98-111 | only the `cliente` path ends with a slash |
| ClientesBaseUrl.ServiceUrl | clientes/config/baseUrl.ts:81-111 | local is host + ":" + port; remotely catalog and rutas go through `bffVenta` and orders and cliente through `bffCliente`, each with its path |
| ClientesBaseUrl.OverrideWins | clientes/config/baseUrl.ts:42-46 | a valid override decides the environment whatever the APK mode |
| ClientesBaseUrl.AwsMatchesProduction | clientes/config/baseUrl.ts:19-36 | aws and production resolve every service and the host identically |
| ClientesBaseUrl.RemoteUnderBackend | clientes/config/baseUrl.ts:19-36 | outside local every URL and the host start with the backend's `https://` root |
| ClientesBaseUrl.ClientUrlTrailingSlash | clientes/config/baseUrl.ts:98-111 | the remote `cliente` URL ends with `/` |
| ClientesBaseUrl.ServiceUrlInjective | clientes/config/baseUrl.ts:81-111 | two services never resolve to the same URL |
| ApkSimulation.HeadersFor | ventas/config/apkSimulation.ts:13-27 | in APK mode there are five headers, beginning with `User-Agent: okhttp/4.12.0`; otherwise only the JSON content type; the content type is always present |
| ApkSimulation.TimeoutFor | ventas/config/apkSimulation.ts:29-30 | the timeout is 45000 exactly in APK mode and 15000 otherwise |
| ApkSimulation.HeaderNamesDistinct | ventas/config/apkSimulation.ts:13-27 | no header name is repeated |
| ApkSimulation.Simulation.constructor | ventas/config/apkSimulation.ts:2 | the force flag starts off |
| ApkSimulation.Simulation.SetForceApkMode | ventas/config/apkSimulation.ts:4-11 | the flag takes the value given; a release build stays in APK mode whatever the value; a dev build is in APK mode exactly when forced |
| ApkSimulation.Simulation.ApkHeaders | ventas/config/apkSimulation.ts:13-27 | five headers exactly in APK mode, namely the APK-mode header set |
| ApkSimulation.Simulation.ApkTimeoutValue | ventas/config/apkSimulation.ts:29-30 | 45000 exactly in APK mode, so always in a release build |
| ApkSimulation.ReleaseIgnoresToggle | ventas/config/apkSimulation.ts:4-30 | in a release build, switching the force flag off still yields the APK headers and timeout |
| Backoff.Pow2 | ventas/hooks/useCatalogWebSocket.ts:121-124 | powers of two are at least 1 |
| Backoff.Pow2Monotone | ventas/hooks/useCatalogWebSocket.ts:121-124 | powers of two grow with the exponent |
| Backoff.ReconnectDelay | ventas/hooks/useCatalogWebSocket.ts:26-28 | every delay lies between 1000 and 30000 |
| Backoff.DelayMonotone | ventas/hooks/useCatalogWebSocket.ts:121-124 | more attempts never shorten the delay |
| Backoff.DelayBelowCap | ventas/hooks/useCatalogWebSocket.ts:121-124 | within the five attempts the delay is 1000·2^attempts, at most 16000, and doubles at each step |
| Backoff.DelaySchedule | ventas/hooks/useCatalogWebSocket.ts:26-28 | attempts 0 to 4 wait 1000, 2000, 4000, 8000 and 16000 ms |
| Backoff.DelayCapped | ventas/hooks/useCatalogWebSocket.ts:121-124 | from the fifth attempt on the delay is the cap, 30000 |
| Backoff.TotalWait | ventas/hooks/useCatalogWebSocket.ts:121-129 | n reconnects wait at least n seconds in total |
| Backoff.FullRunWait | ventas/hooks/useCatalogWebSocket.ts:121-129 | a full run of five reconnects waits 31 seconds |
| FormUrlEncoding.Utf8 | ventas/hooks/useCatalogWebSocket.ts:48-50 | a character encodes to 1 to 4 bytes; exactly ASCII encodes to itself as one byte, and every byte of a longer encoding is ≥ 0x80 |
| FormUrlEncoding.Utf8Encode | ventas/hooks/useCatalogWebSocket.ts:48-50 | a string's UTF-8 encoding is bytes, at least one per character |
| FormUrlEncoding.HexDigit | ventas/hooks/useCatalogWebSocket.ts:48-50 | the upper-case hex digit of n reads back as n |
| FormUrlEncoding.SerializeByte | ventas/hooks/useCatalogWebSocket.ts:48-50 | a serialized byte uses only characters that are safe in a query, and is one character unless percent-encoded |
| FormUrlEncoding.SerializeBytes | ventas/hooks/useCatalogWebSocket.ts:48-50 | a serialized byte string is safe characters only, and empty exactly for no bytes |
| FormUrlEncoding.Encode | ventas/hooks/useCatalogWebSocket.ts:48-50 | an encoded value is safe characters only, and empty exactly when the value is |
| FormUrlEncoding.ParseSerializedByte | ventas/hooks/useCatalogWebSocket.ts:48-50 | decoding a serialized byte followed by more text yields that byte, then the rest |
| FormUrlEncoding.ParseSerialize | ventas/hooks/useCatalogWebSocket.ts:48-50 | decoding a serialized byte string gives the bytes back |
| FormUrlEncoding.SerializeInjective | ventas/hooks/useCatalogWebSocket.ts:48-50 | different byte strings serialize differently |
| FormUrlEncoding.KeptCharsUnchanged | ventas/hooks/useCatalogWebSocket.ts:48-50 | alphanumerics and `*-._` pass through unencoded |
| FormUrlEncoding.SerializePairs | ventas/hooks/useCatalogWebSocket.ts:48-52 | the query string is empty exactly when there are no pairs |
| FormUrlEncoding.NoSeparators | ventas/hooks/useCatalogWebSocket.ts:48-52 | an encoded value never contains `&`, `=`, `?` or `#`, so it cannot break the query |
| VentasLiveFeed.QueryPairs | ventas/hooks/useCatalogWebSocket.ts:46-51 | there are no parameters exactly when search and category are both empty; `search` comes first and `category` last |
| VentasLiveFeed.BuildWebSocketUrl | ventas/hooks/useCatalogWebSocket.ts:46-53 | the URL is the bare socket URL exactly without filters; otherwise it is that URL, `?`, then the encoded pairs |
| VentasLiveFeed.BareUrlIffNoFilters | ventas/hooks/useCatalogWebSocket.ts:46-53 | no query string exactly when both filters are empty |
| VentasLiveFeed.NamesUnencoded | ventas/hooks/useCatalogWebSocket.ts:48-50 | the parameter names appear as written |
| VentasLiveFeed.SearchPrecedesCategory | ventas/hooks/useCatalogWebSocket.ts:46-53 | with both filters, the URL is `?search=…&category=…` in that order |
| VentasLiveFeed.ShouldReconnect | ventas/hooks/useCatalogWebSocket.ts:120 | a normal closure (1000, section 7.4.1 of RFC 6455) never reconnects; any other code reconnects exactly while attempts < 5 |
| VentasLiveFeed.FailedRun | ventas/hooks/useCatalogWebSocket.ts:120-129 | a run of closes without a successful open reconnects at most 5 − attempts times |
| VentasLiveFeed.AbnormalRunUsesAllAttempts | ventas/hooks/useCatalogWebSocket.ts:120-129 | enough abnormal closures (1006) use up exactly the remaining attempts |
| VentasLiveFeed.ReplaceById | ventas/hooks/useCatalogWebSocket.ts:83-91 | a pushed product replaces exactly the entries with its id, keeping length and order |
| VentasLiveFeed.ReplaceUnknownId | ventas/hooks/useCatalogWebSocket.ts:83-91 | an unknown id leaves the list unchanged |
| VentasLiveFeed.ReplaceIdempotent | ventas/hooks/useCatalogWebSocket.ts:83-91 | pushing the same product twice has the effect of pushing it once |
| VentasLiveFeed.ServerError | ventas/hooks/useCatalogWebSocket.ts:93-96 | a server error report carries its message, or the default text when there is none |
| VentasLiveFeed.Feed.constructor | ventas/hooks/useCatalogWebSocket.ts:30-44 | empty list, no pagination, disconnected, no error, no socket, 0 attempts, no timer, and the last params are the initial ones |
| VentasLiveFeed.Feed.Connect | ventas/hooks/useCatalogWebSocket.ts:56-136 | when enabled it opens a socket on the built URL, or records the creation error; when disabled nothing changes |
| VentasLiveFeed.Feed.OnOpen | ventas/hooks/useCatalogWebSocket.ts:64-69 | open sets connected, clears the error and resets attempts to 0 |
| VentasLiveFeed.Feed.OnMessage | ventas/hooks/useCatalogWebSocket.ts:71-101 | `catalog_update` replaces list and pagination; `product_update` replaces by id; `error` and unparseable messages set the error and keep the list; the socket stays as it was |
| VentasLiveFeed.Feed.OnError | ventas/hooks/useCatalogWebSocket.ts:104-110 | an error is reported only when attempts > 0 |
| VentasLiveFeed.Feed.OnClose | ventas/hooks/useCatalogWebSocket.ts:112-131 | close disconnects, and schedules a reconnect after the backoff delay exactly when `ShouldReconnect` holds |
| VentasLiveFeed.Feed.TimerFires | ventas/hooks/useCatalogWebSocket.ts:126-129 | the timer increments attempts before reconnecting |
| VentasLiveFeed.Feed.Refresh | ventas/hooks/useCatalogWebSocket.ts:139-145 | refresh closes cleanly (no reconnect), resets attempts to 0 and reconnects; it does not cancel a pending timer |
| VentasLiveFeed.Feed.Mount | ventas/hooks/useCatalogWebSocket.ts:148-151 | mounting connects on the current URL only when enabled, or records the creation error |
| VentasLiveFeed.Feed.Unmount | ventas/hooks/useCatalogWebSocket.ts:153-160 | teardown cancels the timer and closes cleanly, so nothing reconnects |
| VentasLiveFeed.Feed.ParamsEffect | ventas/hooks/useCatalogWebSocket.ts:164-175 | refreshes exactly when enabled, connected in the render it belongs to, and search or category differ from the last ones recorded; only then are they recorded |
| VentasLiveFeed.Feed.FiltersChanged | ventas/hooks/useCatalogWebSocket.ts:46-175 | new filters re-run the connection effect: the timer is cleared, the old socket closes normally and a socket opens on the new URL; if the previous render was connected, the filter effect refreshes once more, resetting attempts and recording the filters; unchanged filters or a disabled feed change nothing else |
| ClientesLiveFeed.BuildFilterMessage | clientes/hooks/useCatalogWebSocket.ts:42-50 | empty search or category become null, other values are sent as they are, with page and size |
| ClientesLiveFeed.DefaultFilterMessage | clientes/hooks/useCatalogWebSocket.ts:26-32 | with the defaults the message is `{q: null, category: null, page: 1, size: 50}` |
| ClientesLiveFeed.SchedulesReconnect | clientes/hooks/useCatalogWebSocket.ts:105-112 | a reconnect is scheduled exactly when enabled and attempts < 5 |
| ClientesLiveFeed.CloseCodeIgnored | clientes/hooks/useCatalogWebSocket.ts:97-113 | the decision to reconnect does not depend on the close code |
| ClientesLiveFeed.Feed.constructor | clientes/hooks/useCatalogWebSocket.ts:26-40 | empty list, initial metadata, disconnected, no socket, nothing sent, 0 attempts, no timer |
| ClientesLiveFeed.Feed.SendMessage | clientes/hooks/useCatalogWebSocket.ts:42-54 | the filter is sent exactly when the socket is open |
| ClientesLiveFeed.Feed.Connect | clientes/hooks/useCatalogWebSocket.ts:56-123 | when enabled it opens a socket, or marks the feed disconnected when creation fails |
| ClientesLiveFeed.Feed.OnOpen | clientes/hooks/useCatalogWebSocket.ts:64-71 | open connects, resets attempts to 0 and sends the current filter once |
| ClientesLiveFeed.Feed.OnMessage | clientes/hooks/useCatalogWebSocket.ts:73-87 | `items` replaces the list and `meta` the metadata; a parse failure changes nothing |
| ClientesLiveFeed.Feed.OnError | clientes/hooks/useCatalogWebSocket.ts:89-95 | an error always disconnects, and it is logged exactly when attempts > 0 |
| ClientesLiveFeed.Feed.OnClose | clientes/hooks/useCatalogWebSocket.ts:97-113 | close disconnects and schedules a reconnect after the backoff delay exactly when `SchedulesReconnect` holds; only the socket still in `wsRef` is marked closed |
| ClientesLiveFeed.Feed.TimerFires | clientes/hooks/useCatalogWebSocket.ts:108-111 | the timer increments attempts, then reconnects |
| ClientesLiveFeed.Feed.Mount | clientes/hooks/useCatalogWebSocket.ts:126-130 | mounting connects only when enabled; a failed creation leaves the feed disconnected |
| ClientesLiveFeed.Feed.Unmount | clientes/hooks/useCatalogWebSocket.ts:131-139 | teardown cancels the timer and drops the socket |
| ClientesLiveFeed.Feed.FilterEffect | clientes/hooks/useCatalogWebSocket.ts:142-147 | the filters are sent exactly when the render was connected and the socket is open; otherwise nothing is sent |
| ClientesLiveFeed.Feed.FiltersChanged | clientes/hooks/useCatalogWebSocket.ts:42-147 | changed options re-run the connection effect: the timer is cleared, the socket dropped and, when enabled, a new one is connecting; nothing is sent at once; unchanged options change nothing |
| ClientesLiveFeed.Feed.Refresh | clientes/hooks/useCatalogWebSocket.ts:149-155 | when connected, the socket is kept and the filter is sent exactly when it is open; otherwise nothing is sent, and a new socket is opened when enabled, or the feed stays disconnected when disabled or when creation fails |
| ClientesLiveFeed.OpenSendsTwice | clientes/hooks/useCatalogWebSocket.ts:63-147 | on opening, the same filter message is sent twice: by the open handler, then by the filter effect that the connection-state change re-runs |
| ClientesLiveFeed.SearchReachesServerOnOpen | clientes/hooks/useCatalogWebSocket.ts:42-147 | a new search while connected reaches the server when the new socket opens, and the old socket's close still schedules a reconnect |
| ClientesLiveFeed.TeardownStillReconnects | clientes/hooks/useCatalogWebSocket.ts:97-139 | the close issued at teardown, delivered to the handler, schedules a reconnect after 1000 ms |
| CatalogSource.ActiveHttpSource | ventas/hooks/useCatalogWithWebSocket.ts:29-33 | search wins when non-empty, then category, then the full catalogue |
| CatalogSource.Pick | ventas/hooks/useCatalogWithWebSocket.ts:29-33 | the query state chosen is the one of the active source |
| CatalogSource.VentasCategoryQuery | ventas/hooks/useCatalogWithWebSocket.ts:26 | the category query uses the category, or `ANTIBIOTICS` as a placeholder, and is enabled exactly when the category is non-empty |
| CatalogSource.VentasHybrid | ventas/hooks/useCatalogWithWebSocket.ts:51-67 | the socket is used exactly when enabled, connected and non-empty; it then gives the data, not loading, the socket error and socket refresh; otherwise data, loading, error and refetch are the active HTTP query's |
| CatalogSource.ClientesHybrid | clientes/hooks/useCatalogWithWebSocket.ts:44-91 | the same authority rule; when authoritative the error is null; `isConnected` is the raw connection |
| CatalogSource.HybridsAgree | clientes/hooks/useCatalogWithWebSocket.ts:53-69 | both apps choose the same data, loading flag and refetch, and differ only in the socket error shown while the socket is used |
| CatalogSource.FallsBackToHttp | ventas/hooks/useCatalogWithWebSocket.ts:53-56 | without an enabled, connected, non-empty socket the data is the active HTTP query's |
| VentasLogger.Unshift | ventas/utils/apkLogger.ts:78-83 | the new entry comes first, the buffer grows to at most 500, and the oldest entries drop off the tail |
| VentasLogger.Filter | ventas/utils/apkLogger.ts:113-118 | exactly the entries of that level |
| VentasLogger.FilterAppend | ventas/utils/apkLogger.ts:113-118 | filtering keeps stored order |
| VentasLogger.NetworkFilter | ventas/utils/apkLogger.ts:159-160 | only network entries with the requested success flag |
| VentasLogger.NetworkCountsPartition | ventas/utils/apkLogger.ts:155-164 | network successes plus network errors is the number of network entries; total is the buffer length |
| VentasLogger.LogsAsString | ventas/utils/apkLogger.ts:121-125 | empty exactly for an empty buffer, and it begins with the newest entry's `[ts] LEVEL: msg` line |
| VentasLogger.AttemptCountsAsError | ventas/utils/apkLogger.ts:90-164 | logging an attempt raises the network error count by one |
| VentasLogger.OverflowDropsOldest | ventas/utils/apkLogger.ts:78-83 | with a full buffer, the oldest entry is dropped to make room |
| VentasLogger.Logger.constructor | ventas/utils/apkLogger.ts:32-45 | the stored logs are loaded and the "initialized" entry is put on top |
| VentasLogger.Logger.AddLog | ventas/utils/apkLogger.ts:70-87 | the new buffer is the old one with the entry unshifted and capped |
| VentasLogger.Logger.LogNetworkAttempt | ventas/utils/apkLogger.ts:90-92 | a network entry is added without a success flag |
| VentasLogger.Logger.LogNetworkSuccess | ventas/utils/apkLogger.ts:94-97 | a network entry is added with success = true |
| VentasLogger.Logger.LogNetworkError | ventas/utils/apkLogger.ts:99-110 | a network entry is added with success = false |
| VentasLogger.Logger.GetLogs | ventas/utils/apkLogger.ts:113-118 | with no level, all entries; with a level, exactly the entries of that level |
| VentasLogger.LogsAsStringCons | ventas/utils/apkLogger.ts:121-125 | a new entry at the front adds its line and a newline before the text of the older entries |
| VentasLogger.Logger.GetLogsAsString | ventas/utils/apkLogger.ts:121-125 | the newest-first rendering of the buffer |
| VentasLogger.Logger.ClearLogs | ventas/utils/apkLogger.ts:128-132 | afterwards the buffer holds exactly the "Logs cleared" entry |
| VentasLogger.Logger.GetLogStats | ventas/utils/apkLogger.ts:155-164 | total is the buffer length, and network successes plus errors is the number of network entries |
| ClientesLogger.Push | clientes/utils/apkLogger.ts:45-50 | the new entry goes last, at most the last 500 are kept, and the oldest drop first |
| ClientesLogger.CountContaining | clientes/utils/apkLogger.ts:80-93 | a substring count never exceeds the buffer length |
| ClientesLogger.CountAppend | clientes/utils/apkLogger.ts:80-93 | counts add up over concatenation |
| ClientesLogger.StatsOf | clientes/utils/apkLogger.ts:80-93 | total is the length; errors and warnings never exceed it |
| ClientesLogger.LogMentioningErrorCountsAsError | clientes/utils/apkLogger.ts:37-93 | a `LOG` entry whose text contains `ERROR` raises the error count |
| ClientesLogger.NetworkErrorLines | clientes/utils/apkLogger.ts:106-111 | a network failure logs four lines, each tagged as a network failure |
| ClientesLogger.NetworkErrorLineCounted | clientes/utils/apkLogger.ts:106-111 | each failure line counts as an error |
| ClientesLogger.Logger.constructor | clientes/utils/apkLogger.ts:9-14 | console capture is on exactly in non-dev builds, with an empty buffer |
| ClientesLogger.Logger.AddLog | clientes/utils/apkLogger.ts:37-51 | the new buffer is the old one with the `[ts] LEVEL: args` entry pushed and capped |
| ClientesLogger.Logger.Console | clientes/utils/apkLogger.ts:16-35 | a console call is recorded only while capture is on |
| ClientesLogger.Logger.GetLogs | clientes/utils/apkLogger.ts:53-56 | a copy of the buffer, in the same order |
| ClientesLogger.Logger.GetLogsAsString | clientes/utils/apkLogger.ts:58-60 | the entries joined by newlines: empty for none, the entry itself for one |
| Common.JoinAppend | clientes/utils/apkLogger.ts:58-60 | one more entry at the end adds a newline and that entry after the text of the earlier ones |
| ClientesLogger.Logger.ClearLogs | clientes/utils/apkLogger.ts:63-65 | the buffer becomes empty |
| ClientesLogger.Logger.GetLogStats | clientes/utils/apkLogger.ts:80-93 | total is the buffer length |
| ClientesLogger.Logger.LogNetworkAttempt | clientes/utils/apkLogger.ts:95-97 | one `LOG` line with the verb and URL, recorded only while capturing |
| ClientesLogger.Logger.LogNetworkSuccess | clientes/utils/apkLogger.ts:99-104 | a success line, plus a response-keys line when there is response data |
| ClientesLogger.Logger.LogNetworkError | clientes/utils/apkLogger.ts:106-111 | four `ERROR` lines for URL, message, status and code |
| AuthSession.MergeUser | ventas/store/authStore.ts:66-71 | the given fields override and all the others are kept |
| AuthSession.MergeIdempotent | ventas/store/authStore.ts:66-71 | merging the same patch twice is merging it once |
| AuthSession.ReadEnvelope | ventas/store/authStore.ts:82-86 | the record the store persists is found, but has no top-level `token`, so the token `initialize` destructures is missing whatever token the session holds |
| VentasAuth.AuthStore.constructor | ventas/store/authStore.ts:37-41 | signed out, with `isLoading` true |
| VentasAuth.AuthStore.Partialize | ventas/store/authStore.ts:104-109 | user, both tokens and `isAuthenticated` are persisted; `isLoading` never is |
| VentasAuth.AuthStore.SetAuth | ventas/store/authStore.ts:44-52 | stores user and both tokens, authenticated and not loading |
| VentasAuth.AuthStore.Logout | ventas/store/authStore.ts:55-63 | clears user and tokens, not authenticated and not loading |
| VentasAuth.AuthStore.UpdateUser | ventas/store/authStore.ts:66-71 | no user: nothing changes; otherwise the fields are merged and nothing else changes |
| VentasAuth.AuthStore.SetLoading | ventas/store/authStore.ts:74-76 | only `isLoading` changes, so the persisted state is unchanged |
| VentasAuth.AuthStore.Rehydrate | ventas/store/authStore.ts:100-110 | start-up rehydration restores exactly the persisted part of the stored record |
| VentasAuth.AuthStore.Initialize | ventas/store/authStore.ts:79-99 | always ends not loading; a stored token keeps `isAuthenticated`; no token or a failure signs out |
| VentasAuth.SignInRestoreSignOut | ventas/store/authStore.ts:44-109 | the record written after sign-in holds the token inside `state`, so restoring from it signs out; sign-out then persists the empty session |
| VentasAuth.RestartSignsOut | ventas/store/authStore.ts:79-110 | after a restart the rehydrated session is authenticated, and `initialize` then marks it not authenticated while keeping user and tokens |
| ClientesAuth.AuthHeaderFor | clientes/store/authStore.ts:37-49 | a header exists exactly for a non-empty token, and is `Bearer <token>` |
| ClientesAuth.AuthStore.constructor | clientes/store/authStore.ts:29-33 | signed out, loading, with no header |
| ClientesAuth.AuthStore.Partialize | clientes/store/authStore.ts:94-99 | the persisted subset excludes `isLoading` |
| ClientesAuth.AuthStore.SetAuth | clientes/store/authStore.ts:36-45 | installs the token as the auth header and stores the session |
| ClientesAuth.AuthStore.Logout | clientes/store/authStore.ts:48-57 | removes the header and clears the session |
| ClientesAuth.AuthStore.UpdateUser | clientes/store/authStore.ts:60-65 | no-op without a user; otherwise merges, header untouched |
| ClientesAuth.AuthStore.SetLoading | clientes/store/authStore.ts:68-70 | only `isLoading` changes |
| ClientesAuth.AuthStore.Initialize | clientes/store/authStore.ts:73-89 | ends not loading and never changes `isAuthenticated`; a stored token is installed in the header |
| ClientesAuth.AuthStore.Rehydrate | clientes/store/authStore.ts:90-100 | start-up rehydration restores exactly the persisted part of the stored record and leaves the header alone |
| ClientesAuth.RestartLeavesNoHeader | clientes/store/authStore.ts:73-100 | after a restart the session is authenticated but `initialize` installs no header |
| ClientesAuth.FailedRestoreKeepsSession | clientes/store/authStore.ts:73-89 | a restore that finds nothing leaves a signed-in session authenticated, with its header |
| ClientesQueries.MaxRetries | ventas/hooks/useClientes.ts:33-105 | search and metrics allow 1 retry; list, detail, history and infinite allow 2 |
| ClientesQueries.RetriesBounded | ventas/hooks/useClientes.ts:33-36 | a query never retries more than its budget, and never retries a non-5xx error |
| ClientesQueries.ServerErrorsUseBudget | ventas/hooks/useClientes.ts:33-36 | a run of 5xx errors uses the whole budget |
| ClientesQueries.EnabledNeedsKeys | ventas/hooks/useClientes.ts:47-83 | search needs non-empty `q` and vendor id; detail and history need a non-empty client id |
| ClientesQueries.PageSize | ventas/hooks/useClientes.ts:113 | the page size is 10 when missing, 0 or 10, and is never 0 |
| ClientesQueries.NextPageParam | ventas/hooks/useClientes.ts:125-132 | no next page exactly when the last page is short; otherwise pages loaded × `limite` |
| ClientesQueries.OffsetsArePageMultiples | ventas/hooks/useClientes.ts:117-134 | starting from page k at offset k × `limite`, the i-th further request is at (k + i) × `limite`, and no more pages are requested than were loaded |
| ClientesQueries.InfiniteListOffsets | ventas/hooks/useClientes.ts:117-134 | from the initial offset 0, page k is requested at offset k × `limite` |
| OrderStatus.ParseStatus | clientes/types/orders.ts:36-37 | a status string is recognised exactly when it is one of the five names |
| OrderStatus.ParseStatusName | clientes/types/orders.ts:36-37 | every status name is recognised as itself |
| OrderStatus.GetOrderStatusInfo | clientes/types/orders.ts:36-71 | a known status gets its badge and an unknown one NEW's; every caption is non-empty |
| OrderStatus.BadgesDistinguishStatuses | clientes/types/orders.ts:38-67 | NEW and PROCESSING share a badge; every other pair has distinct badges and captions |
| OrderStatus.UnknownLooksNew | clientes/types/orders.ts:70 | an unrecognised status is shown as "En preparación" |
| CreateOrder.ToBody | ventas/hooks/useCreateOrder.ts:29-37 | the body keeps the customer id and maps the items one to one, in order, with sku and qty |
| CreateOrder.RoleAndSourceDropped | ventas/hooks/useCreateOrder.ts:29-37 | role and source do not reach the body |
| CreateOrder.ToBodyInjective | ventas/hooks/useCreateOrder.ts:29-37 | with role and source fixed, different payloads give different bodies |
| CreateOrder.VentasRequest | ventas/hooks/useCreateOrder.ts:45-47 | the body, with the idempotency key as the only header |
| CreateOrder.ClientesRequest | clientes/hooks/useCreateOrder.ts:51-57 | the body, with the key plus JSON `Content-Type` and `Accept` |
| CreateOrder.SameBodyBothApps | clientes/hooks/useCreateOrder.ts:30-38 | both apps send the same body for the same payload |
| CreateOrder.VentasMutation | ventas/hooks/useCreateOrder.ts:23-74 | exactly one POST; its data is returned and a failure is rethrown unchanged |
| CreateOrder.ClientesMutation | clientes/hooks/useCreateOrder.ts:26-62 | exactly one POST with a fresh key and JSON headers; the data is returned or the failure passed on |
| CheckoutScreen.OrderPayload | ventas/app/pedido/carrito.tsx:49-57 | customer is the route id, or `cliente-default` when falsy; role `vendedor`, source `mobile-ventas`; one line per cart line, in order, with sku = code |
| CheckoutScreen.BodyMirrorsCart | ventas/app/pedido/carrito.tsx:49-57 | the body sent carries each cart line's code and quantity, in order |
| CheckoutScreen.ErrorMessage | ventas/app/pedido/carrito.tsx:90-102 | the first that applies: network code, "Network Error" in the message, server message, server detail, own message, default |
| CheckoutScreen.ServerMessageBeatsDetail | ventas/app/pedido/carrito.tsx:90-102 | without a network condition, the server's message is shown over detail and own message |
| CheckoutScreen.ConfirmOrder | ventas/app/pedido/carrito.tsx:42-106 | an empty cart stops before any request; otherwise one request is sent, and the cart is cleared only when it succeeds |
| CheckoutScreen.Decrement | ventas/app/pedido/carrito.tsx:157 | a line at quantity 1 disappears, a larger one goes down by one, nothing else changes |
| CheckoutScreen.Increment | ventas/app/pedido/carrito.tsx:168 | the line goes up by one, capped at its stock |
| CatalogScreen.StockOf | ventas/app/pedido/catalogo.tsx:65 | the inventory total, or 0 without an inventory summary |
| CatalogScreen.ToCartProduct | ventas/app/pedido/catalogo.tsx:58-71 | id, name, price and code are copied; stock is the inventory total |
| CatalogScreen.NoInventoryAddsZero | ventas/app/pedido/catalogo.tsx:58-71 | the `addToCart` helper on its own would give a product without inventory a line with quantity 0 (the screen never calls it for one) |
| CatalogScreen.Categories | ventas/app/pedido/catalogo.tsx:74-81 | "Todos" with id '' first, then one chip per category in order; a chip is active when its id is selected |
| CatalogScreen.OneActiveChip | ventas/app/pedido/catalogo.tsx:74-81 | chip ids are distinct, so at most one chip is active, and it is the selected one |
| CatalogScreen.QuantityPicker.constructor | ventas/app/pedido/catalogo.tsx:25 | no quantities picked yet |
| CatalogScreen.QuantityPicker.GetProductQuantity | ventas/app/pedido/catalogo.tsx:45 | the picked quantity, 1 by default, never below 1 |
| CatalogScreen.QuantityPicker.UpdateQuantity | ventas/app/pedido/catalogo.tsx:48-55 | values below 1 are ignored; otherwise only that code changes |
| CatalogScreen.QuantityPicker.PressDecrement | ventas/app/pedido/catalogo.tsx:234-241 | disabled without stock and at 1 or less; otherwise one less |
| CatalogScreen.QuantityPicker.PressIncrement | ventas/app/pedido/catalogo.tsx:252 | disabled at the stock; otherwise one more, never past the stock |
| CatalogScreen.QuantityPicker.AddToCart | ventas/app/pedido/catalogo.tsx:234-294 | with stock, "Agregar" gives the cart the converted product with the picked quantity; without stock the button is the disabled "Sin Stock" one and the cart is unchanged |
| CatalogScreen.BadgeGrowsByPicked | ventas/app/pedido/catalogo.tsx:28 | the badge grows by exactly the picked quantity when a new, stocked product is added |
| RegisterScreen.WithField | clientes/app/register.tsx:37-39 | the named field takes the value and every other field is kept |
| RegisterScreen.Normalised | clientes/app/register.tsx:250-284 | país is cut to 2 characters and upper-cased; email is lower-cased; other fields are kept as typed |
| RegisterScreen.NormalisationFacts | clientes/app/register.tsx:250-284 | país has at most 2 characters and no lower-case letter; lower-casing the email keeps its length and its `@` |
| RegisterScreen.ValidateForm | clientes/app/register.tsx:41-89 | passes exactly when NIT, name and email are filled, the NIT has at least 5 characters, the email has `@`, the password has at least 8 characters and matches the confirmation, and phone, address, city and a 2-character país are filled |
| RegisterScreen.ValidateFormOrder | clientes/app/register.tsx:41-89 | only the first failure is reported: password failures imply identity passed, and contact failures imply the password passed |
| RegisterScreen.InitialFormNeedsNit | clientes/app/register.tsx:21-46 | the blank form first fails on the NIT |
| RegisterScreen.TranslateField | clientes/app/register.tsx:134-143 | known field names get their Spanish label; others are kept as they are |
| RegisterScreen.FieldName | clientes/app/register.tsx:133 | the last `loc` element, or `campo`; never empty |
| RegisterScreen.RegisterErrorMessage | clientes/app/register.tsx:123-155 | 400, 409 and "Network Error" map to fixed messages; a 422 with a detail list gives `<field>: <msg>` for the first error; anything else gives the default |
| RegisterScreen.ValidationMessageExamples | clientes/app/register.tsx:131-147 | a 422 on `["body","pais"]` reads `País: <msg>`; without a `loc` it reads `campo: <msg>` |
| RegisterScreen.RegisterForm.constructor | clientes/app/register.tsx:21-33 | the form starts blank, with país `CO` and active |
| RegisterScreen.RegisterForm.UpdateField | clientes/app/register.tsx:37-39 | one field takes the normalised text |
| RegisterScreen.RegisterForm.SetConfirmPassword | clientes/app/register.tsx:333 | only the confirmation changes |
| RegisterScreen.RegisterForm.HandleRegister | clientes/app/register.tsx:91-161 | a failed check alerts its message and sends nothing; otherwise the form is sent once and the outcome is mapped to an alert |
| LoginScreen.ValidateLogin | ventas/app/login.tsx:30-38 | blank email or password is refused first; then an email without `@`; sign-in proceeds exactly when both checks pass |
| LoginScreen.SentEmailStillValid | ventas/app/login.tsx:43 | the sent email is already trimmed and still has its `@`; the password is sent as typed |
| LoginScreen.LoginErrorMessage | ventas/app/login.tsx:53-61 | 401 means bad credentials, 404 user not found, "Network Error" connectivity, and anything else the default |
| LoginScreen.LoginForm.constructor | ventas/app/login.tsx:21-23 | empty fields, not loading |
| LoginScreen.LoginForm.TypeEmail | ventas/app/login.tsx:112 | the email is stored lower-cased |
| LoginScreen.LoginForm.TypePassword | ventas/app/login.tsx:130 | the password is stored as typed |
| LoginScreen.LoginForm.HandleLogin | ventas/app/login.tsx:28-67 | a failed check sends nothing; otherwise one request; success installs the session before navigating, failure leaves the session alone |
| VisitScreen.ClienteFrom | ventas/app/visita/registrar.tsx:32-38 | a client exists exactly when data was passed and parsed; bad JSON gives none |
| VisitScreen.RemoveAt | ventas/app/visita/registrar.tsx:171-177 | in range, the element at the index is removed and the rest kept in order; out of range, nothing changes |
| VisitScreen.RemoveLastUndoesAppend | ventas/app/visita/registrar.tsx:171-177 | removing what was just appended restores the list |
| VisitScreen.RemoveAtMultiset | ventas/app/visita/registrar.tsx:171-177 | exactly one element, the one at the index, is gone |
| VisitScreen.Uris | ventas/app/visita/registrar.tsx:141-142 | the payload URIs follow the media list one to one |
| VisitScreen.UrisFollowList | ventas/app/visita/registrar.tsx:141-142 | URIs commute with appending and with removal |
| VisitScreen.PhotoNameIndex | ventas/app/visita/registrar.tsx:71 | a photo name `foto_<time>_<i>.jpg` determines its position `i`, whatever the times |
| VisitScreen.NewPhotos | ventas/app/visita/registrar.tsx:66-74 | one image file per picked asset, in order, named `foto_<time>_<i>.jpg` after the clock reading taken for that asset |
| VisitScreen.NewPhotoNamesDistinct | ventas/app/visita/registrar.tsx:66-72 | photos picked together get distinct names, even when the clock moves during the pick |
| VisitScreen.Capped | ventas/app/visita/registrar.tsx:205-228 | a `maxLength` input keeps a prefix of the text, the whole text when it fits and exactly `maxLength` characters otherwise |
| VisitScreen.CheckVisit | ventas/app/visita/registrar.tsx:115-128 | the client comes first, then observaciones, then contact; saving proceeds exactly when all three hold |
| VisitScreen.VisitForm.constructor | ventas/app/visita/registrar.tsx:41-45 | blank texts, state pending, no media |
| VisitScreen.VisitForm.SetObservaciones | ventas/app/visita/registrar.tsx:218-228 | only the observaciones change, to the text cut to its first 500 characters |
| VisitScreen.VisitForm.SetNombreContacto | ventas/app/visita/registrar.tsx:204-213 | only the contact name changes, to the text cut to its first 100 characters |
| VisitScreen.VisitForm.SetEstado | ventas/app/visita/registrar.tsx:43 | only the state changes |
| VisitScreen.VisitForm.SeleccionarFotos | ventas/app/visita/registrar.tsx:51-79 | the new photos, one clock reading each, are appended after the existing ones; cancelling changes nothing |
| VisitScreen.VisitForm.GrabarVideo | ventas/app/visita/registrar.tsx:82-111 | a recorded video is appended at the end; cancelling changes nothing |
| VisitScreen.VisitForm.EliminarFoto | ventas/app/visita/registrar.tsx:171-173 | exactly the photo at the index is removed |
| VisitScreen.VisitForm.EliminarVideo | ventas/app/visita/registrar.tsx:175-177 | exactly the video at the index is removed |
| VisitScreen.VisitForm.GuardarVisita | ventas/app/visita/registrar.tsx:114-163 | a failed check alerts and sends nothing; otherwise one payload with trimmed texts, vendor 1, customer 200 and the media URIs in order; the contact name sent is at most 100 characters and the observations at most 500 |
| VisitScreen.VisitIgnoresOpenedClient | ventas/app/visita/registrar.tsx:132-143 | two different clients produce the same payload, filed under customer 200 |
| Common.Trim | clientes/app/register.tsx:43 | `String.prototype.trim` never lengthens a string |
| Common.TrimShape | clientes/app/register.tsx:43 | the trimmed text is a slice of the original with only whitespace cut from both ends |
| Common.TrimEmptyIff | clientes/app/register.tsx:43 | the trimmed text is empty exactly when the original is all whitespace |
| Common.TrimIdempotent | ventas/app/login.tsx:43 | trimming twice is trimming once |
| Common.TrimKeepsNonSpace | ventas/app/login.tsx:43 | trimming keeps every non-whitespace character present |
| Common.DecimalRoundTrip | ventas/app/visita/registrar.tsx:71 | the decimal rendering of a number reads back as that number |
| Common.DecimalStringInjective | ventas/app/visita/registrar.tsx:71 | different numbers render differently |
| Common.CaseMappingFacts | ventas/app/login.tsx:112 | case mapping is idempotent, leaves non-letters alone, and lower-casing leaves no upper-case letter (upper-casing no lower-case one) |

## Left out

- **I/O.** HTTP requests, AsyncStorage reads and writes, the real WebSocket transport and real timers are not modelled. Their results are inputs: `PostOutcome`, `StorageRead`, `Frame`/`Message`, the `createFails` flags, and the outcomes given to the screens.
- **Handler timing.** Socket handlers run one at a time, when called. In ventas, the close event of a socket that the hook closes itself (code 1000) is handled at once, inside `Refresh` and `Unmount`. Other ventas handlers are not told apart by the socket they belong to. The clientes close handler says, through `current`, whether its socket is still the one in `wsRef`. Overlapping reconnect timers collapse into one pending timer with its delay.
- **Console interception.** The mechanics of interception are not modelled. `ClientesLogger.Logger.Console` records a call only while capture is on. The original console output is not modelled.
- **JSON.** `JSON.stringify` and `JSON.parse` are not modelled. A parse result is an input (`Parsed`, `Frame`, `Message`). The extra fields of a ventas network-error log entry are reduced to URL, message, code and status.
- **Clocks and randomness.** `Date.now`, `toISOString`, `Math.random` and `uuidv4` are parameters: `timestamp`, `now`, `times` and `key`. A photo pick takes one reading per asset (`times`), since each name is built inside the `map`.
- **UI.** Alerts, router navigation, ImagePicker and permission prompts are modelled only through returned values and `Option` inputs. Styling, `toFixed` and date formatting are not modelled.
- **React.** The scheduling of React effects and `isPending` flags are not modelled. Each effect is an operation the caller invokes. Where an effect reads state, the value its render saw is a parameter (`renderedConnected`). A filter change runs the effects in the order React does: the connection effect's cleanup, then the connection effect, then the filter effect.
- **Stale closures.** A reconnect timer runs the `connect` of the render that created its socket. After a filter change, that `connect` still holds the old filters: for clientes, a socket opened by such a timer sends the old filters on opening. The model keeps one set of filters, so `TimerFires` and `OnOpen` always use the current ones. In ventas this case does not arise, because the cleanup closes normally and schedules no timer.
- **Rehydration.** `Rehydrate` takes a stored record that the store wrote itself, so its `requires` asks for a consistent session. A record edited outside the app is not modelled. The restart scenarios take rehydration to finish before the read in `initialize` returns; the two reads are not ordered in the code.
- **String lengths.** JavaScript lengths count UTF-16 code units; the model counts code points. The country limit, the password and NIT lengths, and the `maxLength` of the visit's contact name (100) and observations (500) are stated over code points.
- **Case mapping.** Only ASCII letters are case-mapped. `toLowerCase` and `toUpperCase` on other letters are not modelled.
- **Prototype keys.** A lookup with a key such as `constructor` is not modelled. This affects the field-name table in `RegisterScreen.TranslateField` and the status table in `OrderStatus.GetOrderStatusInfo`.
- **Message merging.** In the clientes socket, `sendMessage(params)` merges extra parameters into the filter message; every call in the hook passes `{}`, so the model always sends the current filter.
- **Decoding.** The decoding direction of UTF-8 is not modelled. `FormUrlEncoding` proves that its byte-level serializer round-trips, not that the characters do.
- **clientes APK mode.** The clientes copy of the APK simulation is not part of this model; its APK flag is the parameter `apkMode`.
- **User records.** A user record is a finite map from field names to values.
- **Logger extras.** The `'GET'` default of `logNetworkAttempt` in both loggers is not modelled; callers always pass the verb. The clientes `logEnvironmentInfo` only makes five `console.log` calls built from the platform name and the environment. Neither is modelled; each of those calls is a `Console` call.
- **Service modules.** The axios layers under `clientes/services/` and `ventas/services/` are not part of this model. Only the clientes `setAuthToken` appears, as the abstract `authHeader` field.
- **Unexpected errors.** The `catch` branch of `guardarVisita` that shows "Ha ocurrido un error inesperado." is not modelled; a failure of the visit request is its message. The first 422 error's `msg` is modelled as a string.
- VentasLogger.Logger.constructor: loading the stored logs is an input (`stored`), and a failed load is the empty list.
- CatalogScreen.QuantityPicker.GetProductQuantity: the equality with the stored quantity is stated under the picker's invariant, which keeps every stored quantity ≥ 1.
- CatalogScreen.OneActiveChip: a selection that is neither '' nor a known category id leaves no chip active. The lemma states the active chip through `id == selected` and does not claim exactly one.
