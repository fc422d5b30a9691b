/** The query rules of the sales-rep app's customer hooks
    (ventas/hooks/useClientes.ts): when each query may run, when a failed
    request is retried, and how the infinite customer list pages by offset. */
module ClientesQueries {
  import opened Common

  /** The six hooks. */
  datatype QueryKind = List | Search | Detail | History | Metrics | Infinite

  /** How many retries each hook's `retry` allows. */
  function MaxRetries(kind: QueryKind): (n: nat)
    ensures n == 1 <==> kind == Search || kind == Metrics
    ensures n == 2 <==> !(kind == Search || kind == Metrics)
  {
    match kind
    case Search => 1
    case Metrics => 1
    case _ => 2
  }

  /** `retry(count, err)`: `count < max && err?.response?.status >= 500`. An
      error without a response status compares as false. */
  predicate ShouldRetry(kind: QueryKind, count: nat, status: Option<int>)
  {
    count < MaxRetries(kind) && status.Some? && status.value >= 500
  }

  /** The number of retries made when the successive failures carry
      `statuses`, `count` failures having already been retried. */
  function Retries(kind: QueryKind, count: nat, statuses: seq<Option<int>>): (n: nat)
    decreases |statuses|
  {
    if statuses == [] || !ShouldRetry(kind, count, statuses[0]) then 0
    else 1 + Retries(kind, count + 1, statuses[1..])
  }

  /** Whatever the failures, a hook never retries more than its budget, and a
      failure that is not a server error stops the retries at once. */
  lemma {:induction false} RetriesBounded(kind: QueryKind, count: nat, statuses: seq<Option<int>>)
    requires count <= MaxRetries(kind)
    ensures Retries(kind, count, statuses) <= MaxRetries(kind) - count
    ensures statuses != [] && !(statuses[0].Some? && statuses[0].value >= 500) ==> Retries(kind, count, statuses) == 0
    decreases |statuses|
  {
    if statuses != [] && ShouldRetry(kind, count, statuses[0]) {
      RetriesBounded(kind, count + 1, statuses[1..]);
    }
  }

  /** A run of server errors uses the whole budget. */
  lemma {:induction false} ServerErrorsUseBudget(kind: QueryKind, count: nat, statuses: seq<Option<int>>)
    requires count <= MaxRetries(kind) <= count + |statuses|
    requires forall i :: 0 <= i < |statuses| ==> statuses[i] == Some(503)
    ensures Retries(kind, count, statuses) == MaxRetries(kind) - count
    decreases |statuses|
  {
    if count < MaxRetries(kind) {
      ServerErrorsUseBudget(kind, count + 1, statuses[1..]);
    }
  }

  /** `enabled` of the search hook. */
  predicate SearchEnabled(enabled: bool, q: Option<string>, vendedorId: Option<string>)
  {
    enabled && Truthy(q) && Truthy(vendedorId)
  }

  /** `enabled` of the detail hook. */
  predicate DetailEnabled(enabled: bool, clienteId: string)
  {
    enabled && clienteId != ""
  }

  /** `enabled` of the history hook. */
  predicate HistoryEnabled(enabled: bool, clienteId: string, vendedorId: Option<string>)
  {
    enabled && clienteId != "" && Truthy(vendedorId)
  }

  /** The search only runs with both a query and a seller, and the detail and
      history only with a customer id. */
  lemma EnabledNeedsKeys(enabled: bool, q: Option<string>, vendedorId: Option<string>, clienteId: string)
    ensures SearchEnabled(enabled, q, vendedorId) ==> q.Some? && q.value != "" && vendedorId.Some? && vendedorId.value != ""
    ensures DetailEnabled(enabled, clienteId) || HistoryEnabled(enabled, clienteId, vendedorId) ==> clienteId != ""
    ensures HistoryEnabled(enabled, clienteId, vendedorId) ==> DetailEnabled(enabled, clienteId)
  {
  }

  /** `baseParams?.limite || 10`. */
  function PageSize(limite: Option<int>): (n: int)
    ensures n == 10 <==> limite.None? || limite.value == 0 || limite.value == 10
    ensures n != 0
  {
    if limite.Some? && limite.value != 0 then limite.value else 10
  }

  /** `getNextPageParam`: no next page after a short page, otherwise the
      offset just past everything loaded. */
  function NextPageParam(lastPageLength: nat, pagesLoaded: nat, limite: int): (r: Option<int>)
    ensures r.None? <==> lastPageLength < limite
    ensures r.Some? ==> r.value == pagesLoaded * limite
  {
    if lastPageLength < limite then None else Some(pagesLoaded * limite)
  }

  const InitialPageParam := 0

  /** The offsets requested, from page `k` on, when page `k` is requested at
      `offset` and the server answers pages of lengths `lengths`. */
  function Offsets(limite: int, lengths: seq<nat>, k: nat, offset: int): (r: seq<int>)
    decreases |lengths| - k
  {
    if k >= |lengths| then []
    else
      match NextPageParam(lengths[k], k + 1, limite)
      case None => [offset]
      case Some(next) => [offset] + Offsets(limite, lengths, k + 1, next)
  }

  /** Page `i` is requested at offset `i · limite`, and paging stops at the
      first short page. */
  lemma {:induction false} OffsetsArePageMultiples(limite: int, lengths: seq<nat>, k: nat, offset: int)
    requires offset == k * limite
    ensures k <= |lengths| ==> |Offsets(limite, lengths, k, offset)| <= |lengths| - k
    ensures forall i :: 0 <= i < |Offsets(limite, lengths, k, offset)| ==>
      Offsets(limite, lengths, k, offset)[i] == (k + i) * limite
    decreases |lengths| - k
  {
    if k < |lengths| {
      var next := NextPageParam(lengths[k], k + 1, limite);
      if next.Some? {
        OffsetsArePageMultiples(limite, lengths, k + 1, next.value);
        var rest := Offsets(limite, lengths, k + 1, next.value);
        assert Offsets(limite, lengths, k, offset) == [offset] + rest;
        forall i | 0 <= i < |Offsets(limite, lengths, k, offset)|
          ensures Offsets(limite, lengths, k, offset)[i] == (k + i) * limite
        {
          if i > 0 {
            assert Offsets(limite, lengths, k, offset)[i] == rest[i - 1];
          }
        }
      }
    }
  }

  /** From the first page: the infinite list requests offsets 0, limite,
      2·limite, and so on. */
  lemma InfiniteListOffsets(limite: int, lengths: seq<nat>)
    ensures var offs := Offsets(limite, lengths, 0, InitialPageParam);
            |offs| <= |lengths| && forall i :: 0 <= i < |offs| ==> offs[i] == i * limite
  {
    OffsetsArePageMultiples(limite, lengths, 0, InitialPageParam);
  }
}
