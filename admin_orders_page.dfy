/** The admin orders screen (src/app/admin/pedidos/page.tsx): the selection
    of orders as a set, the bulk and per-row status updates applied to the
    loaded page, and the pagination controls. */
module AdminPedidos {
  import opened Common
  import opened Domain
  import opened QueryBuilder

  const PAGE_SIZE: int := 10

  /** `toggleSelect`'s new set: the id leaves if present, joins otherwise. */
  function Toggled(selected: set<string>, id: string): (r: set<string>)
    ensures id in r <==> id !in selected
    ensures forall x :: x != id ==> (x in r <==> x in selected)
  {
    if id in selected then selected - {id} else selected + {id}
  }

  /** Toggling the same id twice gives back the selection. */
  lemma ToggleTwice(selected: set<string>, id: string)
    ensures Toggled(Toggled(selected, id), id) == selected
  {
  }

  /** The ids of the loaded page. */
  function IdsOf(pedidos: seq<Pedido>): (ids: set<string>)
    ensures forall x :: x in ids <==> exists i :: 0 <= i < |pedidos| && pedidos[i].id == x
  {
    set i | 0 <= i < |pedidos| :: pedidos[i].id
  }

  /** The loaded page after `update({ estado: nuevo })` succeeded for `ids`. */
  function WithEstado(pedidos: seq<Pedido>, ids: set<string>, nuevoEstado: string): (r: seq<Pedido>)
    ensures |r| == |pedidos|
    ensures forall i :: 0 <= i < |pedidos| && pedidos[i].id in ids ==>
      r[i] == pedidos[i].(estado := nuevoEstado)
    ensures forall i :: 0 <= i < |pedidos| && pedidos[i].id !in ids ==> r[i] == pedidos[i]
  {
    seq(|pedidos|, i requires 0 <= i < |pedidos| =>
      if pedidos[i].id in ids then pedidos[i].(estado := nuevoEstado) else pedidos[i])
  }

  /** Marking orders as sent never changes which orders are listed, and
      doing it twice is the same as doing it once. */
  lemma WithEstadoIdempotent(pedidos: seq<Pedido>, ids: set<string>, nuevoEstado: string)
    ensures WithEstado(WithEstado(pedidos, ids, nuevoEstado), ids, nuevoEstado) == WithEstado(pedidos, ids, nuevoEstado)
    ensures IdsOf(WithEstado(pedidos, ids, nuevoEstado)) == IdsOf(pedidos)
  {
    var r := WithEstado(pedidos, ids, nuevoEstado);
    assert forall i :: 0 <= i < |pedidos| ==> r[i].id == pedidos[i].id;
  }

  /** Both row buttons exist: an order can be moved from pending to sent and
      back again, and both moves touch only that order. */
  lemma RowButtonsGoBothWays(pedidos: seq<Pedido>, id: string, i: int)
    requires 0 <= i < |pedidos| && pedidos[i].id == id
    requires forall j :: 0 <= j < |pedidos| && pedidos[j].id == id ==> pedidos[j].estado == PENDIENTE
    ensures WithEstado(pedidos, {id}, ENVIADO)[i].estado == ENVIADO
    ensures WithEstado(WithEstado(pedidos, {id}, ENVIADO), {id}, PENDIENTE) == pedidos
  {
    var sent := WithEstado(pedidos, {id}, ENVIADO);
    var back := WithEstado(sent, {id}, PENDIENTE);
    forall j | 0 <= j < |pedidos| ensures back[j] == pedidos[j] {
      if pedidos[j].id == id {
        assert back[j] == pedidos[j].(estado := PENDIENTE);
      }
    }
  }

  /** "Anterior": `Math.max(1, p - 1)`. */
  function PrevPage(p: int): (r: int)
    ensures r >= 1
    ensures p > 1 ==> r == p - 1
  {
    if p - 1 > 1 then p - 1 else 1
  }

  /** `Math.ceil(total / pageSize)` for a positive page size. */
  function CeilDiv(total: int, size: int): (c: int)
    requires size > 0
    ensures (c - 1) * size < total <= c * size
  {
    DivBounds(-total, size);
    -((-total) / size)
  }

  /** The page count shown: `Math.max(1, Math.ceil(total / pageSize))`. */
  function PageCount(total: int): (n: int)
    ensures n >= 1
    ensures total > 0 ==> (n - 1) * PAGE_SIZE < total <= n * PAGE_SIZE
  {
    var c := CeilDiv(total, PAGE_SIZE);
    if c > 1 then c else 1
  }

  /** "Siguiente" is enabled exactly on the pages before the last one shown. */
  lemma NextEnabledBeforeLastPage(p: int, total: int)
    requires p >= 1
    ensures HasMore(p, PAGE_SIZE, total) <==> p < PageCount(total)
  {
    var n := PageCount(total);
    if total > 0 {
      if p < n {
        MulMonotone(p, n - 1, PAGE_SIZE);
      } else {
        MulMonotone(n, p, PAGE_SIZE);
      }
    }
  }

  class AdminPedidosPage {
    var pedidos: seq<Pedido>
    var selectedIds: set<string>
    var cargando: bool
    var loadingMore: bool
    var error: Option<string>
    var page: int
    var totalCount: int
    var hasMore: bool

    constructor ()
      ensures pedidos == [] && selectedIds == {} && cargando && !loadingMore && error.None?
      ensures page == 1 && totalCount == 0 && hasMore
    {
      pedidos := [];
      selectedIds := {};
      cargando := true;
      loadingMore := false;
      error := None;
      page := 1;
      totalCount := 0;
      hasMore := true;
    }

    method ToggleSelect(id: string)
      modifies this
      ensures selectedIds == Toggled(old(selectedIds), id)
      ensures pedidos == old(pedidos) && page == old(page)
      ensures cargando == old(cargando) && loadingMore == old(loadingMore) && error == old(error)
      ensures totalCount == old(totalCount) && hasMore == old(hasMore)
    {
      var next := selectedIds;
      if id in next {
        next := next - {id};
      } else {
        next := next + {id};
      }
      selectedIds := next;
    }

    method SelectAllVisible()
      modifies this
      ensures selectedIds == IdsOf(pedidos)
      ensures pedidos == old(pedidos) && page == old(page)
      ensures cargando == old(cargando) && loadingMore == old(loadingMore) && error == old(error)
      ensures totalCount == old(totalCount) && hasMore == old(hasMore)
    {
      selectedIds := set i | 0 <= i < |pedidos| :: pedidos[i].id;
    }

    method ClearSelection()
      modifies this
      ensures selectedIds == {}
      ensures pedidos == old(pedidos) && page == old(page)
      ensures cargando == old(cargando) && loadingMore == old(loadingMore) && error == old(error)
      ensures totalCount == old(totalCount) && hasMore == old(hasMore)
    {
      selectedIds := {};
    }

    /** `bulkMarkAsSent`: `written` is the set of ids the update is sent for,
        if any; `writeError` is the error it reports. */
    method BulkMarkAsSent(writeError: Option<string>) returns (written: Option<set<string>>)
      modifies this
      ensures old(selectedIds) == {} ==> written.None?
      ensures old(selectedIds) != {} ==> written == Some(old(selectedIds))
      ensures old(selectedIds) != {} && writeError.None? ==>
        pedidos == WithEstado(old(pedidos), old(selectedIds), ENVIADO) && selectedIds == {}
      ensures old(selectedIds) == {} || writeError.Some? ==>
        pedidos == old(pedidos) && selectedIds == old(selectedIds)
      ensures page == old(page)
      ensures cargando == old(cargando) && loadingMore == old(loadingMore) && error == old(error)
      ensures totalCount == old(totalCount) && hasMore == old(hasMore)
    {
      if selectedIds == {} {
        return None;
      }
      var ids := selectedIds;
      written := Some(ids);
      if writeError.Some? {
        return;
      }
      pedidos := WithEstado(pedidos, ids, ENVIADO);
      selectedIds := {};
    }

    /** `cambiarEstado`: the update is always sent; the page changes only
        when it succeeds. */
    method CambiarEstado(id: string, nuevoEstado: string, writeError: Option<string>)
      modifies this
      ensures writeError.None? ==> pedidos == WithEstado(old(pedidos), {id}, nuevoEstado)
      ensures writeError.Some? ==> pedidos == old(pedidos)
      ensures selectedIds == old(selectedIds) && page == old(page)
      ensures cargando == old(cargando) && loadingMore == old(loadingMore) && error == old(error)
      ensures totalCount == old(totalCount) && hasMore == old(hasMore)
    {
      if writeError.None? {
        pedidos := WithEstado(pedidos, {id}, nuevoEstado);
      }
    }

    /** `fetchTodosLosPedidos({ page: p })`, or the current page when `p` is absent. */
    method FetchTodosLosPedidos(p: Option<int>, reply: FetchReply<Pedido>)
      modifies this
      ensures var q := if p.Some? then p.value else old(page);
        match reply
        case HttpError(status, payloadError) =>
          pedidos == [] && page == old(page) && error == Some(FetchErrorMessage(status, payloadError)) &&
          totalCount == old(totalCount) && hasMore == old(hasMore)
        case Payload(data, count) =>
          var rows := if data.Some? then data.value else [];
          var total := if count.Some? then count.value else |rows|;
          pedidos == rows && totalCount == total && page == q &&
          hasMore == HasMore(q, PAGE_SIZE, total) && error.None?
        case FetchThrew(m) =>
          pedidos == old(pedidos) && page == old(page) && error == Some(m) &&
          totalCount == old(totalCount) && hasMore == old(hasMore)
      ensures selectedIds == old(selectedIds)
      ensures !cargando && !loadingMore
    {
      var q := if p.Some? then p.value else page;
      error := None;
      if q == 1 {
        cargando := true;
      } else {
        loadingMore := true;
      }
      match reply {
        case HttpError(status, payloadError) =>
          error := Some(FetchErrorMessage(status, payloadError));
          pedidos := [];
        case Payload(data, count) =>
          var rows := if data.Some? then data.value else [];
          var total := if count.Some? then count.value else |rows|;
          pedidos := rows;
          totalCount := total;
          hasMore := q * PAGE_SIZE < total;
          page := q;
        case FetchThrew(m) =>
          error := Some(m);
      }
      cargando := false;
      loadingMore := false;
    }

    /** "Anterior". */
    method Previous()
      modifies this
      ensures page == PrevPage(old(page))
      ensures pedidos == old(pedidos) && selectedIds == old(selectedIds)
      ensures cargando == old(cargando) && loadingMore == old(loadingMore) && error == old(error)
      ensures totalCount == old(totalCount) && hasMore == old(hasMore)
    {
      page := if page - 1 > 1 then page - 1 else 1;
    }

    /** "Siguiente", which is disabled without `hasMore`. */
    method Next()
      modifies this
      ensures page == if old(hasMore) then old(page) + 1 else old(page)
      ensures pedidos == old(pedidos) && selectedIds == old(selectedIds)
      ensures cargando == old(cargando) && loadingMore == old(loadingMore) && error == old(error)
      ensures totalCount == old(totalCount) && hasMore == old(hasMore)
    {
      if hasMore {
        page := page + 1;
      }
    }

    /** `loadMore`: nothing while loading or on the last page. */
    method LoadMore()
      modifies this
      ensures page == if old(hasMore) && !old(loadingMore) then old(page) + 1 else old(page)
      ensures pedidos == old(pedidos) && selectedIds == old(selectedIds)
      ensures cargando == old(cargando) && loadingMore == old(loadingMore) && error == old(error)
      ensures totalCount == old(totalCount) && hasMore == old(hasMore)
    {
      if !hasMore || loadingMore {
        return;
      }
      page := page + 1;
    }
  }
}
