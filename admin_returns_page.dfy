/** The admin returns screen (src/app/admin/devoluciones/page.tsx): which
    actions each status offers, the update `cambiarEstado` writes and the
    local list it patches, and the list refresh with `hasMore`. */
module AdminDevoluciones {
  import opened Common
  import opened Domain
  import opened Text
  import opened QueryBuilder
  import AdminDevolucionesRoute

  datatype Action = Approve | Reject | Complete

  /** The buttons rendered for a return in status `estado`. */
  function ActionsFor(estado: string): (acts: seq<Action>)
    ensures Approve in acts <==> estado == PENDIENTE
    ensures Reject in acts <==> estado == PENDIENTE
    ensures Complete in acts <==> estado == APROBADA
    ensures estado == RECHAZADA || estado == COMPLETADA ==> acts == []
  {
    (if estado == PENDIENTE then [Approve, Reject] else []) +
    (if estado == APROBADA then [Complete] else [])
  }

  /** The `cambiarEstado(id, estado, observaciones)` call a button makes,
      given what `prompt` returned (`None` when cancelled). */
  function CallFor(a: Action, prompted: Option<string>): (call: Option<(string, Option<string>)>)
    // approving always calls, with the observation only if one was typed
    ensures a == Approve ==>
      call.Some? && call.value.0 == APROBADA &&
      call.value.1 == (if prompted.Some? && prompted.value != "" then prompted else None)
    // rejecting calls only with a non-empty reason, and passes it
    ensures a == Reject ==>
      (call.Some? <==> prompted.Some? && prompted.value != "") &&
      (call.Some? ==> call.value == (RECHAZADA, prompted))
    ensures a == Complete ==> call == Some((COMPLETADA, None))
  {
    match a
    case Approve => Some((APROBADA, if prompted.Some? && prompted.value != "" then prompted else None))
    case Reject => if prompted.Some? && prompted.value != "" then Some((RECHAZADA, prompted)) else None
    case Complete => Some((COMPLETADA, None))
  }

  /** The intended life cycle of a return request. */
  predicate Allowed(from: string, to: string)
  {
    (from == PENDIENTE && (to == APROBADA || to == RECHAZADA)) || (from == APROBADA && to == COMPLETADA)
  }

  /** Every call the screen can make follows the life cycle, and every step
      of the life cycle is offered by some button. */
  lemma GatingMatchesLifeCycle(estado: string)
    ensures forall a, prompted :: a in ActionsFor(estado) && CallFor(a, prompted).Some? ==>
      Allowed(estado, CallFor(a, prompted).value.0)
    ensures forall to :: Allowed(estado, to) ==>
      exists a :: a in ActionsFor(estado) && CallFor(a, Some("motivo")).Some? && CallFor(a, Some("motivo")).value.0 == to
  {
    forall to | Allowed(estado, to)
      ensures exists a :: a in ActionsFor(estado) && CallFor(a, Some("motivo")).Some? && CallFor(a, Some("motivo")).value.0 == to
    {
      if to == APROBADA && estado == PENDIENTE {
        assert Approve in ActionsFor(estado);
      } else if to == RECHAZADA {
        assert Reject in ActionsFor(estado) && CallFor(Reject, Some("motivo")).value.0 == RECHAZADA;
      } else {
        assert Complete in ActionsFor(estado);
      }
    }
  }

  /** Rejected and completed returns are final on this screen. */
  lemma FinalStates(estado: string)
    requires estado == RECHAZADA || estado == COMPLETADA
    ensures forall to :: !Allowed(estado, to)
    ensures ActionsFor(estado) == []
  {
  }

  /** `updateData`: the status, and `observaciones_admin` only when the
      observation is non-empty. */
  function UpdateDataFor(nuevoEstado: string, observaciones: Option<string>): (u: ReturnUpdate)
    ensures u.estado == nuevoEstado
    ensures u.obs.SetTo? <==> observaciones.Some? && observaciones.value != ""
    ensures u.obs.SetTo? ==> u.obs.value == observaciones
  {
    ReturnUpdate(nuevoEstado,
                 if observaciones.Some? && observaciones.value != "" then SetTo(observaciones) else Keep)
  }

  /** The local `prev.map(…)` after a successful update. */
  function Updated(list: seq<Devolucion>, id: string, nuevoEstado: string, observaciones: Option<string>): (r: seq<Devolucion>)
    ensures |r| == |list|
    ensures forall i :: 0 <= i < |list| && list[i].id != id ==> r[i] == list[i]
    ensures forall i :: 0 <= i < |list| && list[i].id == id ==>
      r[i].estado == nuevoEstado &&
      r[i].observaciones == (if observaciones.Some? && observaciones.value != "" then observaciones else list[i].observaciones) &&
      r[i].(estado := list[i].estado, observaciones := list[i].observaciones) == list[i]
  {
    seq(|list|, i requires 0 <= i < |list| =>
      if list[i].id == id
      then list[i].(estado := nuevoEstado,
                    observaciones := if observaciones.Some? && observaciones.value != "" then observaciones
                                     else list[i].observaciones)
      else list[i])
  }

  /** The local patch agrees with what the table does with the payload sent. */
  lemma LocalMatchesTable(list: seq<Devolucion>, id: string, nuevoEstado: string, observaciones: Option<string>)
    ensures Updated(list, id, nuevoEstado, observaciones) ==
            UpdateWhereId(list, id, UpdateDataFor(nuevoEstado, observaciones))
  {
  }

  /** The screen writes the same update the admin route would for a body
      that carries the observation only when one was typed. */
  lemma ScreenMatchesRoute(id: string, nuevoEstado: string, observaciones: Option<string>)
    ensures UpdateDataFor(nuevoEstado, observaciones) ==
      AdminDevolucionesRoute.PayloadFor(AdminDevolucionesRoute.PatchBody(id, nuevoEstado,
        if observaciones.Some? && observaciones.value != "" then AdminDevolucionesRoute.Given(observaciones.value)
        else AdminDevolucionesRoute.Undefined))
  {
  }

  /** The query string of the list request: `q` and `estado` only when
      set, then the page and the page size. */
  function RequestParams(query: string, filtroEstado: string, p: int): (params: seq<(string, string)>)
    ensures |params| >= 2 && params[|params| - 2..] == [("page", IntToString(p)), ("limit", IntToString(PAGE_SIZE))]
  {
    var tail := [("page", IntToString(p)), ("limit", IntToString(PAGE_SIZE))];
    var filters := (if query != "" then [("q", query)] else []) +
                   (if filtroEstado != "" then [("estado", filtroEstado)] else []);
    assert (filters + tail)[|filters + tail| - 2..] == tail;
    filters + tail
  }

  /** The search term and the state filter are sent exactly when set. */
  lemma RequestParamsFilters(query: string, filtroEstado: string, p: int)
    ensures ("q", query) in RequestParams(query, filtroEstado, p) <==> query != ""
    ensures ("estado", filtroEstado) in RequestParams(query, filtroEstado, p) <==> filtroEstado != ""
  {
    var params := RequestParams(query, filtroEstado, p);
    var tail := [("page", IntToString(p)), ("limit", IntToString(PAGE_SIZE))];
    var qs := if query != "" then [("q", query)] else [];
    var es := if filtroEstado != "" then [("estado", filtroEstado)] else [];
    assert params == qs + es + tail;
    assert ("q", query) !in es + tail && ("estado", filtroEstado) !in qs + tail by {
      assert "q" != "estado" && "q" != "page" && "q" != "limit";
      assert "estado" != "page" && "estado" != "limit";
    }
  }

  const PAGE_SIZE: int := 10

  class AdminDevolucionesPage {
    var devoluciones: seq<Devolucion>
    var cargando: bool
    var loadingMore: bool
    var error: Option<string>
    var page: int
    var totalCount: int
    var hasMore: bool

    constructor ()
      ensures devoluciones == [] && cargando && !loadingMore && error.None?
      ensures page == 1 && totalCount == 0 && hasMore
    {
      devoluciones := [];
      cargando := true;
      loadingMore := false;
      error := None;
      page := 1;
      totalCount := 0;
      hasMore := true;
    }

    /** `cambiarEstado`: `sent` is the payload written, if any; on a write
        error the list is left as it was. (The refetch that follows a
        success is a separate `FetchDevoluciones`.) */
    method CambiarEstado(configured: bool, id: string, nuevoEstado: string, observaciones: Option<string>,
                         writeError: Option<string>) returns (sent: Option<ReturnUpdate>)
      modifies this
      ensures !configured ==> sent.None? && devoluciones == old(devoluciones)
      ensures configured ==> sent == Some(UpdateDataFor(nuevoEstado, observaciones))
      ensures configured && writeError.None? ==>
        devoluciones == Updated(old(devoluciones), id, nuevoEstado, observaciones)
      ensures writeError.Some? ==> devoluciones == old(devoluciones)
      ensures page == old(page) && totalCount == old(totalCount) && hasMore == old(hasMore)
      ensures cargando == old(cargando) && loadingMore == old(loadingMore) && error == old(error)
    {
      if !configured {
        return None;
      }
      var updateData := ReturnUpdate(nuevoEstado, Keep);
      if observaciones.Some? && observaciones.value != "" {
        updateData := updateData.(obs := SetTo(observaciones));
      }
      sent := Some(updateData);
      if writeError.None? {
        devoluciones := Updated(devoluciones, id, nuevoEstado, observaciones);
      }
    }

    /** `fetchDevoluciones({ page: p })`, or the current page when `p` is absent. */
    method FetchDevoluciones(p: Option<int>, reply: FetchReply<Devolucion>)
      modifies this
      ensures var q := if p.Some? then p.value else old(page);
        match reply
        case HttpError(status, payloadError) =>
          devoluciones == [] && page == old(page) &&
          error == Some(FetchErrorMessage(status, payloadError)) &&
          totalCount == old(totalCount) && hasMore == old(hasMore)
        case Payload(data, count) =>
          var rows := if data.Some? then data.value else [];
          var total := if count.Some? then count.value else |rows|;
          devoluciones == rows && totalCount == total && page == q &&
          hasMore == HasMore(q, PAGE_SIZE, total) && error.None?
        case FetchThrew(m) =>
          devoluciones == old(devoluciones) && page == old(page) && error == Some(m) &&
          totalCount == old(totalCount) && hasMore == old(hasMore)
      ensures !cargando && !loadingMore
    {
      var q := if p.Some? then p.value else page;
      error := None;
      if q == 1 {
        cargando := true;
      } else {
        loadingMore := true;
      }
      match reply {
        case HttpError(status, payloadError) =>
          error := Some(FetchErrorMessage(status, payloadError));
          devoluciones := [];
        case Payload(data, count) =>
          var rows := if data.Some? then data.value else [];
          var total := if count.Some? then count.value else |rows|;
          devoluciones := rows;
          totalCount := total;
          hasMore := q * PAGE_SIZE < total;
          page := q;
        case FetchThrew(m) =>
          error := Some(m);
      }
      cargando := false;
      loadingMore := false;
    }
  }

  /** `hasMore` says a next page exists: it holds exactly when the rows
      before the next page's first row do not cover the count. */
  lemma HasMoreMeansNextPageStartsInside(p: int, count: int)
    requires p >= 1
    ensures HasMore(p, PAGE_SIZE, count) <==> PageRange(p + 1, PAGE_SIZE).from < count
  {
  }
}
