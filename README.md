# mi-tienda — a Dafny model of the storefront's logic

mi-tienda is a small Next.js shop backed by a hosted Postgres (Supabase).
Customers fill a cart, place orders (`pedidos`) and ask for returns
(`devoluciones`) within 30 days. Administrators list, search and page through
orders and returns, move them through their states, edit the inventory, and
manage client profiles. A one-off script backfills product families.

This project models the logic inside those screens and API routes. In the
model the remote tables are sequences of records, and every remote reply is a
parameter of the operation that receives it. Timestamps are integer
milliseconds, prices are integer cents, and JavaScript's falsy `""`, `0`,
`null` and `undefined` are written out explicitly.

One module per source file, plus four shared modules:

- `Common`: optional values, the outcome of `parseInt`, the pagination range
  `[(page-1)*limit, page*limit-1]`, the 30-day window in whole days, order-keeping
  filter, first-seen distinct, `.single()`, last-wins map building.
- `Text`: ASCII lower-casing, `includes`, `trim` (over ECMAScript's full
  whitespace set), and escaping of the LIKE wildcards.
- `Domain`: cart lines, orders, return requests, status names, and update payloads.
- `QueryBuilder`: the query value a route builds step by step, and the list
  reply and response shapes.

State that the source updates in place is a class:

- `CartContext.Cart`, `AdminPedidos.AdminPedidosPage` and
  `AdminDevoluciones.AdminDevolucionesPage`.
- `Inventario.InventarioPage` and `AdminClientes.GestionClientes`.
- `SolicitarDevolucion.FormularioDevolucion` and `Carrito.CarritoPage`.
- `ToastContext.ToastProvider`.
- Stand-ins for tables: `DevolucionesRoute.Store`,
  `AdminDevolucionesRoute.ReturnsTable` and `BackfillFamilias.Database`.

Pure computations are functions. Lemmas beside them state the properties.

## Model

| member | source | states |
|---|---|---|
| Common.ParamOr | src/app/api/devoluciones/route.ts:18-19 | an absent, non-numeric or zero parameter gives the default; any other number is kept; the result is never 0 |
| Common.PageRange | src/app/api/devoluciones/route.ts:37-40 | the range starts at `(page-1)*limit` and holds exactly `limit` rows |
| Common.PagesAdjacent | src/app/api/devoluciones/route.ts:37-38 | page p+1 starts right after page p ends |
| Common.PagesDisjoint | src/app/api/devoluciones/route.ts:37-38 | with a positive limit, the ranges of distinct pages do not overlap |
| Common.RowOnPage | src/app/api/devoluciones/route.ts:37-38 | every row index k lies inside the range of page `k/limit + 1` |
| Common.HasMore | src/app/admin/pedidos/page.tsx:140 | defines `p * pageSize < count`; an empty listing never has more. Its properties are in `AdminPedidos.NextEnabledBeforeLastPage` and `AdminDevoluciones.HasMoreMeansNextPageStartsInside` |
| Common.ElapsedDays | src/app/api/devoluciones/route.ts:85 | the floored day count d satisfies `d*86400000 <= now-since < (d+1)*86400000` |
| Common.PlusDays | src/app/api/devoluciones/route.ts:92-93 | `setDate(getDate() + days)` lands exactly `days` whole days later |
| Common.WithinReturnWindow | src/app/api/devoluciones/route.ts:83-89 | defines the admission test (at most 30 whole days elapsed); a date not yet passed is always inside. Its exact boundary is in `WindowInMilliseconds` |
| Common.WindowInMilliseconds | src/app/api/devoluciones/route.ts:83-89 | whole days `<= 30` holds exactly when less than 31 days of milliseconds have elapsed |
| Common.Filter | src/app/admin/clientes/page.tsx:56-59 | an element is in the result iff it is in the input and passes the predicate; never longer |
| Common.FilterConcat | src/app/admin/inventario/page.tsx:183-186 | filtering distributes over concatenation, so order is kept |
| Common.FilterKeepsAll | src/app/admin/clientes/page.tsx:56-59 | a predicate that keeps every element gives back the input |
| Common.FilterDropsAll | src/app/api/devoluciones/route.ts:96-102 | a predicate that keeps nothing gives the empty list |
| Common.Distinct | scripts/backfill_familias.mjs:40-46 | the same members as the input, without repeats |
| Common.Single | src/app/api/devoluciones/route.ts:71-76 | a row comes back iff exactly one row matches, and it is a matching one |
| Common.ToMap | scripts/backfill_familias.mjs:64-66 | the keys of the map are exactly the keys of the pairs |
| Common.ToMapLastWins | scripts/backfill_familias.mjs:64-66 | a key maps to the value of its last pair |
| Text.ToLower | src/app/admin/inventario/page.tsx:183-186 | same length; each character is lower-cased |
| Text.IncludesAt | src/app/admin/clientes/page.tsx:56-59 | an occurrence at any offset makes `includes` true |
| Text.Trim | src/app/api/search/route.ts:12 | never longer, and the result neither starts nor ends with whitespace. Its other properties are in `TrimEmptyIffBlank` and `TrimIdempotent` |
| Text.TrimStartDropsBlankPrefix | src/app/api/search/route.ts:12 | `trimStart` drops a whitespace-only prefix and stops at the first other character |
| Text.TrimEndDropsBlankSuffix | src/app/api/search/route.ts:12 | `trimEnd` drops a whitespace-only suffix and stops at the last other character |
| Text.TrimStartSnocSpace | src/app/api/search/route.ts:12 | `trimStart` of a string with trailing whitespace keeps that whitespace unless the whole string is blank |
| Text.TrimDropsSurroundingSpace | scripts/backfill_familias.mjs:42 | any whitespace character at either end, vertical tab and form feed included, is cut by `trim` |
| Text.TrimEmptyIffBlank | src/app/api/search/route.ts:12 | `trim` gives `""` exactly for strings made only of whitespace |
| Text.TrimIdempotent | scripts/backfill_familias.mjs:42 | trimming twice is trimming once |
| Text.EscapeLike | src/app/api/admin/devoluciones/route.ts:33 | defines the escaping of each `%` and `_` with a backslash; never shorter. Its properties are in `EscapeLikeGuardsWildcards` and `UnescapeEscapeLike` |
| Text.EscapeLikeGuardsWildcards | src/app/api/admin/devoluciones/route.ts:33 | after escaping, every `%` and `_` is preceded by a backslash |
| Text.UnescapeEscapeLike | src/app/api/admin/pedidos/route.ts:28 | for a query without backslashes, escaping loses nothing: reading it back gives the query |
| Domain.NewReturnRow | src/app/api/devoluciones/route.ts:92-93 | a new return is `Pendiente` with no observation; its deadline is exactly 30 days after the order; an empty reason becomes `No especificado` |
| Domain.ApplyUpdate | src/app/api/admin/devoluciones/route.ts:84-89 | the status is replaced; the observation changes only when the payload carries it; nothing else changes |
| Domain.UpdateWhereId | src/app/api/admin/devoluciones/route.ts:84-87 | `.update(u).eq('id', id)`: the same rows in the same order; rows with the id get `ApplyUpdate`, the others are unchanged |
| QueryBuilder.IlikeParts | src/app/api/admin/devoluciones/route.ts:32-39 | one pattern per searched column, each built from the escaped query |
| QueryBuilder.ListResponseOf | src/app/api/admin/devoluciones/route.ts:54-58 | a database error gives 500 with its message; otherwise the data (null gives `[]`) and the count (null gives the data's length) |
| QueryBuilder.FetchErrorMessage | src/app/admin/pedidos/page.tsx:123-126 | the payload's error if it has one, otherwise `HTTP <status>`; never empty |
| CartContext.LineTotal | src/context/CartContext.tsx:76 | a line counts its price times its quantity, or its price once when the quantity is 0 (falsy) |
| CartContext.CartTotal | src/context/CartContext.tsx:76 | defines the context's `total` reduce; 0 for an empty cart and the line total for one line. Its behaviour under add and remove is in `TotalAfterAddExisting`, `TotalAfterAddNew` and `TotalAfterRemove` |
| CartContext.Qty | src/context/CartContext.tsx:76 | the quantity, or 1 when it is 0 (falsy) |
| CartContext.Find | src/context/CartContext.tsx:45 | a line is found iff one has the id, and it is the first such line |
| CartContext.Added | src/context/CartContext.tsx:34-54 | no product or no id: unchanged; a known id: that line's quantity goes up by one and nothing else changes; a new id: appended with quantity 1 |
| CartContext.Removed | src/context/CartContext.tsx:61-74 | a quantity above 1 goes down by one; otherwise exactly the lines with that id are dropped, by an order-keeping `Filter` (see `Common.FilterConcat`); an absent id changes nothing |
| CartContext.AddKeepsValid | src/context/CartContext.tsx:44-54 | adding keeps ids unique and quantities at least 1 |
| CartContext.RemoveKeepsValid | src/context/CartContext.tsx:61-74 | removing keeps ids unique and quantities at least 1 |
| CartContext.AddThenRemoveRestores | src/context/CartContext.tsx:53 | adding a new product and then removing its id restores the cart |
| CartContext.TotalAfterAddExisting | src/context/CartContext.tsx:45-50 | a second unit of a known line adds its price to the total |
| CartContext.TotalAfterAddNew | src/context/CartContext.tsx:53 | a new line adds its price to the total |
| CartContext.TotalAfterRemove | src/context/CartContext.tsx:61-74 | removing one unit subtracts that line's price from the total |
| CartContext.SumConcat | src/context/CartContext.tsx:76 | the reduce over a concatenation is the sum of the two reduces |
| CartContext.OrderRow | src/context/CartContext.tsx:115-121 | the order is `Pendiente`, for the user and address, with the cart as articles and the cart total as total |
| CartContext.PlaceOrder | src/context/CartContext.tsx:78-132 | no user or no client fails before any write; otherwise the profile upsert is the first write; a profile error fails with `ProfileFailed` and its message after that one write; otherwise the address is inserted iff none matched and the order insert is the last write; a failed order insert fails with `OrderFailed` and its message; success iff user, configuration, profile and order insert all succeed, and the stored order is `OrderRow`'s |
| CartContext.Cart.Total | src/context/CartContext.tsx:76 | the cart total of the current lines |
| CartContext.Cart.AddToCart | src/context/CartContext.tsx:27-59 | the lines become `Added(old lines)` and stay valid |
| CartContext.Cart.RemoveFromCart | src/context/CartContext.tsx:61-74 | the lines become `Removed(old lines)` and stay valid |
| CartContext.Cart.ClearCart | src/context/CartContext.tsx:141 | the cart becomes empty |
| CartContext.Cart.EnviarPedido | src/context/CartContext.tsx:78-132 | the outcome is `PlaceOrder` of the old cart; the cart is emptied exactly on success |
| Header.Count | src/components/Header.tsx:10 | 0 for an empty cart |
| Header.CountIsUnitPriceTotal | src/components/Header.tsx:10 | count uses the same quantity default (a falsy `cantidad` counts 1) as the context total: with unit prices they agree |
| Header.CountAtLeastLines | src/components/Header.tsx:10 | a valid cart counts at least one unit per line |
| Header.CountAfterAddNew | src/components/Header.tsx:10 | adding a new product raises the count by one |
| Header.ShowCart | src/components/Header.tsx:16 | defines `!pathname?.startsWith("/admin")`; no pathname, or one shorter than `/admin`, shows the link. The exact condition is in `ShowCartIff` |
| Header.ShowCartIff | src/components/Header.tsx:16 | the cart link shows iff there is no pathname or it does not start with `/admin` |
| Header.UserAreaFor | src/components/Header.tsx:28-36 | the email and logout show iff there is a user; otherwise the login link shows |
| Carrito.Subtotal | src/app/carrito/page.tsx:55 | a line without quantity counts 0; any other line counts what the context's `LineTotal` counts |
| Carrito.CheckoutTotal | src/app/carrito/page.tsx:53-56 | 0 for an empty cart |
| Carrito.CheckoutTotalOfLines | src/app/carrito/page.tsx:124 | the total is the sum of the line subtotals |
| Carrito.CheckoutMatchesContext | src/app/carrito/page.tsx:53-56 | with every quantity set, the page total equals the context total |
| Carrito.ValidCartTotalsAgree | src/app/carrito/page.tsx:53-56 | on a valid cart both totals agree |
| Carrito.MissingQuantityDiffers | src/app/carrito/page.tsx:55 | a line without quantity counts 0 here but one unit in the context |
| Carrito.ErrorMessage | src/app/carrito/page.tsx:79 | the message shown is never empty |
| Carrito.ConfirmDisabled | src/app/carrito/page.tsx:170 | the confirm button is disabled while a checkout is running; otherwise exactly when the cart is empty |
| Carrito.CarritoPage.HandleConfirmar | src/app/carrito/page.tsx:61-83 | an empty cart or no user submits nothing; success marks the page completed and empties the cart; failure sets the message and keeps the cart; after a submission the page is no longer submitting |
| ToastContext.EffectiveDuration | src/context/ToastContext.tsx:24 | a missing duration is 4000 |
| ToastContext.Scheduled | src/context/ToastContext.tsx:25-27 | removal is scheduled iff the duration is positive |
| ToastContext.Without | src/context/ToastContext.tsx:16-18 | exactly the toasts with other ids are kept |
| ToastContext.WithoutUnknown | src/context/ToastContext.tsx:17 | removing an unknown id changes nothing |
| ToastContext.WithoutKeepsOrder | src/context/ToastContext.tsx:17 | removal keeps the order of the rest |
| ToastContext.AddThenRemove | src/context/ToastContext.tsx:16-23 | adding a toast with a fresh id and removing it restores the list |
| ToastContext.ToastProvider.AddToast | src/context/ToastContext.tsx:20-28 | the toast is prepended and its removal is scheduled as `Scheduled` says |
| ToastContext.ToastProvider.RemoveToast | src/context/ToastContext.tsx:16-18 | the list becomes `Without(old, id)` |
| ToastContext.UseToast | src/context/ToastContext.tsx:45-49 | outside a provider it fails with the source's message; inside, it returns the context |
| SearchRoute.ClampPage | src/app/api/search/route.ts:13 | a missing page is 1; a number below 1 becomes 1; non-numeric gives NaN |
| SearchRoute.ClampLimit | src/app/api/search/route.ts:14 | a missing limit is 12; a number in [1, 100] is kept, one above is 100 and one below is 1; non-numeric gives NaN |
| SearchRoute.DedupFrom | src/app/api/search/route.ts:48-49 | defines the `Map` pushes of one list past a set of seen ids; never longer than the list. Its properties are in the `DedupFrom…` lemmas below |
| SearchRoute.Merged | src/app/api/search/route.ts:48-52 | defines the merged list; never longer than the four sub-results together, and the first name match comes first. Its properties are in `MergedUnique`, `MergedIds` and `MergedFirstSeen` |
| SearchRoute.DedupFromConcat | src/app/api/search/route.ts:48-50 | pushing two lists in turn equals pushing their concatenation |
| SearchRoute.DedupFromIds | src/app/api/search/route.ts:49 | the ids pushed are the list's ids not seen before |
| SearchRoute.DedupFromUnique | src/app/api/search/route.ts:49 | no two pushed items share an id |
| SearchRoute.DedupFromFirstSeen | src/app/api/search/route.ts:49 | each pushed item is the first occurrence of its id |
| SearchRoute.DedupFromMember | src/app/api/search/route.ts:49 | each pushed item carries an id of the list that was not seen before |
| SearchRoute.DedupFromOrder | src/app/api/search/route.ts:49 | pushed items keep the order of their first occurrences |
| SearchRoute.MergedUnique | src/app/api/search/route.ts:48-52 | the merged list has no duplicate ids |
| SearchRoute.MergedIds | src/app/api/search/route.ts:49-52 | the merged ids are the union of the four sub-results' ids |
| SearchRoute.MergedFirstSeen | src/app/api/search/route.ts:45-50 | each merged item is the first occurrence of its id in nombre, familia, descripcion, categoria order, and they appear in that order |
| SearchRoute.Push | src/app/api/search/route.ts:49 | the loop over one list appends its unseen items and records their ids |
| SearchRoute.Merge | src/app/api/search/route.ts:48-52 | the four pushes give the merged list |
| SearchRoute.Slice | src/app/api/search/route.ts:55 | `slice` within bounds gives that subrange; starting past the end gives `[]` |
| SearchRoute.PageStart | src/app/api/search/route.ts:54 | the start index is the page range's first row |
| SearchRoute.Paginate | src/app/api/search/route.ts:53-55 | the items from `(page-1)*limit` on, in order; a full page of `limit` while rows remain, the rest on the last page, none past the end; a NaN page or limit gives no items |
| SearchRoute.PageStartIsInRange | src/app/api/search/route.ts:54-55 | a page that starts inside the merged list begins with that row |
| SearchRoute.MissingIds | src/app/api/search/route.ts:58 | exactly the family ids of items without `familias`, without repeats |
| SearchRoute.Filled | src/app/api/search/route.ts:67-71 | only `familias` can change, and only for an item that lacks it and whose family id was returned |
| SearchRoute.FillFamilias | src/app/api/search/route.ts:67-71 | the in-place loop fills each item as `Filled` says |
| SearchRoute.FillPage | src/app/api/search/route.ts:55-71 | the page keeps its length, and each item is `Filled` with the family map |
| SearchRoute.FamMapOf | src/app/api/search/route.ts:59-66 | no ids needed or a failed family fetch gives an empty map |
| SearchRoute.RowsOr | src/app/api/search/route.ts:32 | a failed sub-query contributes no rows |
| SearchRoute.RecentResponse | src/app/api/search/route.ts:20-26 | the recent listing passes the rows through with their length as total; a failed fetch passes its status |
| SearchRoute.Get | src/app/api/search/route.ts:6-80 | no configuration gives 500; a blank query gives the recent listing; a throwing sub-query gives 500; otherwise the filled page of the merged list with its length as total |
| DevolucionesRoute.BuildListQuery | src/app/api/devoluciones/route.ts:25-40 | newest first, with an embedded filter on the client's id (`pedido.cliente_id`), over the page's row range. Without `!inner` that filter applies to the embedded order, not to the returned rows |
| DevolucionesRoute.Get | src/app/api/devoluciones/route.ts:8-52 | no configuration gives 500; no `clienteId` gives 400 and issues no query; otherwise the query for the defaulted page and limit |
| DevolucionesRoute.DefaultPage | src/app/api/devoluciones/route.ts:18-19 | without parameters the range is rows 0 to 9 |
| DevolucionesRoute.OwnedOrder | src/app/api/devoluciones/route.ts:71-76 | a found order has the id and belongs to the client |
| DevolucionesRoute.PendingDuplicate | src/app/api/devoluciones/route.ts:96-102 | a found duplicate is a pending return for the same order and product |
| DevolucionesRoute.Admit | src/app/api/devoluciones/route.ts:54-130 | fixed order of checks: 500, then 400 for missing fields, 403 for someone else's order, 400 after the window, 400 for a pending duplicate; created iff every check passes and the insert succeeds, with the new row as `NewReturnRow` |
| DevolucionesRoute.AdmitLateRejections | src/app/api/devoluciones/route.ts:85-106 | past the ownership and window checks, a pending duplicate gives the 400 with its message, and otherwise a failed insert gives 500 with the insert's message |
| DevolucionesRoute.OwnershipBeforeWindow | src/app/api/devoluciones/route.ts:71-89 | without an owned order the answer is 403 whatever the time |
| DevolucionesRoute.WindowBoundary | src/app/api/devoluciones/route.ts:83-89 | the window check rejects iff more than 30 whole days have elapsed |
| DevolucionesRoute.OtherStatesDoNotBlock | src/app/api/devoluciones/route.ts:96-106 | returns in other states do not count as duplicates |
| DevolucionesRoute.PendingBlocks | src/app/api/devoluciones/route.ts:96-106 | the one pending return for a pair is found as the duplicate |
| DevolucionesRoute.AdmitKeepsAtMostOnePending | src/app/api/devoluciones/route.ts:96-126 | admitting keeps at most one pending return per order and product |
| DevolucionesRoute.OnlyOneMatch | src/app/api/devoluciones/route.ts:96-102 | under that invariant `.single()` sees exactly one match |
| DevolucionesRoute.Store.Post | src/app/api/devoluciones/route.ts:54-130 | the reply is `Admit`; the new row is appended exactly when created; orders are untouched |
| MisPedidos.PuedeSolicitarDevolucion | src/app/perfil/mis-pedidos/page.tsx:48-53 | the page's test is the server's `WithinReturnWindow`; its boundary is in `EligibleIff` and `ThirtyDaysStillEligible` |
| MisPedidos.EligibleIff | src/app/perfil/mis-pedidos/page.tsx:48-53 | eligible iff less than 31 days of milliseconds have elapsed |
| MisPedidos.ThirtyDaysStillEligible | src/app/perfil/mis-pedidos/page.tsx:51-52 | anything within 30 days plus less than one more day is eligible; 31 days is not |
| MisPedidos.NegativeElapsedEligible | src/app/perfil/mis-pedidos/page.tsx:51-52 | an order dated in the future is eligible |
| MisPedidos.EligibilityOnlyExpires | src/app/perfil/mis-pedidos/page.tsx:48-53 | once ineligible, always ineligible |
| MisPedidos.AgreesWithServer | src/app/perfil/mis-pedidos/page.tsx:48-53 | a request for an eligible, owned order without a pending duplicate is created by the server |
| MisPedidos.ControlsShown | src/app/perfil/mis-pedidos/page.tsx:176-188 | exactly one of link and notice shows; the link when eligible, pointing at the request page for that order |
| SolicitarDevolucion.ParseCantidad | src/app/perfil/solicitar-devolucion/page.tsx:198 | non-numeric or 0 becomes 1; any other number is kept |
| SolicitarDevolucion.MaxCantidad | src/app/perfil/solicitar-devolucion/page.tsx:196 | the line's quantity, or 1 when the line's quantity is missing or 0 or there is no line |
| SolicitarDevolucion.DefaultQuantityInRange | src/app/perfil/solicitar-devolucion/page.tsx:193-198 | the default quantity lies in `[1, max]` |
| SolicitarDevolucion.FormularioDevolucion.FetchPedido | src/app/perfil/solicitar-devolucion/page.tsx:42-72 | no client or no order id does nothing; an order past the window is not loaded and sets the expiry error; loading ends |
| SolicitarDevolucion.FormularioDevolucion.SetCantidad | src/app/perfil/solicitar-devolucion/page.tsx:198 | only the form's quantity changes, to `ParseCantidad`; the order, messages and loading flags stay |
| SolicitarDevolucion.FormularioDevolucion.HandleSubmit | src/app/perfil/solicitar-devolucion/page.tsx:74-111 | without client, order or user nothing happens; an index with no line sets `Producto no válido` and sends nothing; otherwise it always sends the `NewReturnRow` for the form, then success or the insert's message; sending ends and the page's loading flag is untouched |
| SolicitarDevolucion.SameRowAsApi | src/app/perfil/solicitar-devolucion/page.tsx:85-95 | the page inserts the same row the returns API would create |
| AdminDevoluciones.ActionsFor | src/app/admin/devoluciones/page.tsx:298-355 | approve and reject iff `Pendiente`; complete iff `Aprobada`; nothing for `Rechazada` or `Completada` |
| AdminDevoluciones.CallFor | src/app/admin/devoluciones/page.tsx:301-321 | reject needs a non-empty reason; approve passes an optional note; complete passes none |
| AdminDevoluciones.GatingMatchesLifeCycle | src/app/admin/devoluciones/page.tsx:298-355 | the buttons offer exactly the transitions `Pendiente` to `Aprobada` or `Rechazada`, and `Aprobada` to `Completada` |
| AdminDevoluciones.FinalStates | src/app/admin/devoluciones/page.tsx:339-355 | rejected and completed returns allow no transition |
| AdminDevoluciones.UpdateDataFor | src/app/admin/devoluciones/page.tsx:135-136 | the payload carries the observation iff it is non-empty |
| AdminDevoluciones.Updated | src/app/admin/devoluciones/page.tsx:144-150 | only rows with the id change status; their old observation stays when none is given |
| AdminDevoluciones.LocalMatchesTable | src/app/admin/devoluciones/page.tsx:144-150 | the local update equals what the table does with the payload sent |
| AdminDevoluciones.ScreenMatchesRoute | src/app/admin/devoluciones/page.tsx:135-136 | the page's payload equals the PATCH route's payload for the same fields |
| AdminDevoluciones.RequestParams | src/app/admin/devoluciones/page.tsx:94-98 | page and limit come last |
| AdminDevoluciones.RequestParamsFilters | src/app/admin/devoluciones/page.tsx:94-97 | `q` and `estado` are sent iff set |
| AdminDevoluciones.AdminDevolucionesPage.CambiarEstado | src/app/admin/devoluciones/page.tsx:128-156 | sends `UpdateDataFor`; on success the list becomes `Updated`; on error it is unchanged; paging, loading flags and the message stay |
| AdminDevoluciones.AdminDevolucionesPage.FetchDevoluciones | src/app/admin/devoluciones/page.tsx:87-126 | an HTTP error empties the list and sets the message; a payload sets rows, total, page and `hasMore`; a throw sets the message only; both error paths keep the total and `hasMore`; loading ends |
| AdminDevoluciones.HasMoreMeansNextPageStartsInside | src/app/admin/devoluciones/page.tsx:116 | `hasMore` iff the next page's first row exists |
| AdminDevolucionesRoute.BuildListQuery | src/app/api/admin/devoluciones/route.ts:22-50 | the search filter iff `q` is set, the exact status filter iff `estado` is set, newest first, over the page range |
| AdminDevolucionesRoute.Get | src/app/api/admin/devoluciones/route.ts:8-62 | no configuration gives 500; otherwise the query for the defaulted page and limit, answered by `ListResponseOf` |
| AdminDevolucionesRoute.SearchPartsEscaped | src/app/api/admin/devoluciones/route.ts:32-39 | every search pattern embeds the escaped query |
| AdminDevolucionesRoute.PayloadFor | src/app/api/admin/devoluciones/route.ts:79-82 | the status always; the observation iff the field is defined, null included |
| AdminDevolucionesRoute.ReturnsTable.Patch | src/app/api/admin/devoluciones/route.ts:64-99 | 500 without configuration or JSON; 400 without id or status; success iff exactly one row matches and the write succeeds, after which only that row is updated; otherwise nothing changes |
| AdminDevolucionesRoute.PatchTouchesOnlyItsRow | src/app/api/admin/devoluciones/route.ts:84-89 | rows with other ids are untouched; the matching row gets the payload |
| AdminDevolucionesRoute.UngatedPatch | src/app/api/admin/devoluciones/route.ts:79-89 | the route does not check the current state: a completed return can be set back to `Pendiente` |
| AdminPedidosRoute.BuildListQuery | src/app/api/admin/pedidos/route.ts:21-44 | the search filter iff `q` is set, then the date bounds (as timestamps); newest first over the page range |
| AdminPedidosRoute.DateFilters | src/app/api/admin/pedidos/route.ts:38-39 | a `gte` condition iff `from` is given and an `lte` condition iff `to` is given, and nothing else |
| AdminPedidosRoute.DateWindowInclusive | src/app/api/admin/pedidos/route.ts:38-39 | a timestamp passes iff it is at or after `from` and at or before `to`, each only when given |
| AdminPedidosRoute.DayStart | src/app/api/admin/pedidos/route.ts:39 | the first millisecond of the given day: day `day` starts there and day `day-1` ends just before |
| AdminPedidosRoute.DateOnlyToExcludesRestOfDay | src/app/api/admin/pedidos/route.ts:39 | a date-only `to` is that day's midnight: an order placed later that day fails the filter, one placed at midnight passes |
| AdminPedidosRoute.Get | src/app/api/admin/pedidos/route.ts:6-56 | no configuration gives 500; otherwise the query for the defaulted page and limit, answered by `ListResponseOf` |
| AdminPedidos.Toggled | src/app/admin/pedidos/page.tsx:157-164 | the id's membership flips and no other id's does |
| AdminPedidos.ToggleTwice | src/app/admin/pedidos/page.tsx:157-164 | toggling twice is the identity |
| AdminPedidos.IdsOf | src/app/admin/pedidos/page.tsx:167 | exactly the ids of the listed orders |
| AdminPedidos.WithEstado | src/app/admin/pedidos/page.tsx:183 | orders with a selected id get the status; the others are unchanged; same length |
| AdminPedidos.WithEstadoIdempotent | src/app/admin/pedidos/page.tsx:183 | applying it twice is applying it once, and the ids stay the same |
| AdminPedidos.RowButtonsGoBothWays | src/app/admin/pedidos/page.tsx:288-299 | marking a pending order `Enviado` and then `Pendiente` restores the list |
| AdminPedidos.PrevPage | src/app/admin/pedidos/page.tsx:307 | never below 1; otherwise one back |
| AdminPedidos.CeilDiv | src/app/admin/pedidos/page.tsx:308 | `ceil(total/size)` by its defining bounds |
| AdminPedidos.PageCount | src/app/admin/pedidos/page.tsx:308 | at least 1, and for a positive total the number of pages that holds it |
| AdminPedidos.NextEnabledBeforeLastPage | src/app/admin/pedidos/page.tsx:140 | `hasMore` iff the page is before the last shown page |
| AdminPedidos.AdminPedidosPage.ToggleSelect | src/app/admin/pedidos/page.tsx:157-164 | the selection becomes `Toggled`; every other field is unchanged |
| AdminPedidos.AdminPedidosPage.SelectAllVisible | src/app/admin/pedidos/page.tsx:166-168 | the selection becomes exactly the visible ids; every other field is unchanged |
| AdminPedidos.AdminPedidosPage.ClearSelection | src/app/admin/pedidos/page.tsx:170 | the selection becomes empty; every other field is unchanged |
| AdminPedidos.AdminPedidosPage.BulkMarkAsSent | src/app/admin/pedidos/page.tsx:172-189 | an empty selection writes nothing; on success exactly the selected orders become `Enviado` and the selection clears; on error nothing changes; page, total, `hasMore`, loading flags and message never change |
| AdminPedidos.AdminPedidosPage.CambiarEstado | src/app/admin/pedidos/page.tsx:191-206 | on success only orders with the id change status; on error nothing changes; the selection, page, total, `hasMore`, loading flags and message never change |
| AdminPedidos.AdminPedidosPage.FetchTodosLosPedidos | src/app/admin/pedidos/page.tsx:108-150 | an HTTP error empties the list and sets the message; a payload sets rows, total, page and `hasMore`; a throw sets the message only; both error paths keep the total and `hasMore`; loading ends |
| AdminPedidos.AdminPedidosPage.Previous | src/app/admin/pedidos/page.tsx:307 | the page becomes `PrevPage`; every other field is unchanged |
| AdminPedidos.AdminPedidosPage.Next | src/app/admin/pedidos/page.tsx:309 | the page advances only when `hasMore`; every other field is unchanged |
| AdminPedidos.AdminPedidosPage.LoadMore | src/app/admin/pedidos/page.tsx:152-155 | the page advances only when `hasMore` and not already loading; every other field is unchanged |
| Inventario.Get | src/app/admin/inventario/page.tsx:76-83 | a key is found iff some entry has it, and the found pair is in the object |
| Inventario.Put | src/app/admin/inventario/page.tsx:68-73 | the key now reads the value; every other key reads as before |
| Inventario.Delete | src/app/admin/inventario/page.tsx:89-93 | the key is gone; every other key reads as before |
| Inventario.Sanitize | src/app/admin/inventario/page.tsx:76-83 | exactly the entries whose value is null, string, number or boolean and whose key is not `familias` are kept |
| Inventario.SanitizeIdempotent | src/app/admin/inventario/page.tsx:76-83 | sanitising twice is sanitising once, and it adds no key |
| Inventario.SanitizeGet | src/app/admin/inventario/page.tsx:128-136 | a key reads its old value after sanitising iff that entry is kept |
| Inventario.FindFamilia | src/app/admin/inventario/page.tsx:68-70 | a found family has the id; none found means no family has it |
| Inventario.BasePayload | src/app/admin/inventario/page.tsx:62-66 | name, price, and the image or null when it is empty; no other key |
| Inventario.CreatePayload | src/app/admin/inventario/page.tsx:62-73 | `familia_id` iff a family is chosen; `familia` set to the family's name iff the id is known |
| Inventario.CreatePayloadFields | src/app/admin/inventario/page.tsx:62-73 | name, price and image (or null) are sent; no `familias` key |
| Inventario.WithFamilia | src/app/admin/inventario/page.tsx:68-73 | sets `familia_id`, and `familia` only for a known family; other keys unchanged |
| Inventario.EditPayload | src/app/admin/inventario/page.tsx:118-125 | a truthy `familia_id` refreshes `familia` from a known family; otherwise both become null; other keys unchanged |
| Inventario.RetryDropsOnlyFamilia | src/app/admin/inventario/page.tsx:144-148 | the retry payload is the same minus the `familia` key, and sanitising commutes with that removal |
| Inventario.Filtrados | src/app/admin/inventario/page.tsx:183-186 | a product is kept iff its lower-cased name or family label includes the lower-cased term |
| Inventario.EmptyTermKeepsAll | src/app/admin/inventario/page.tsx:183-186 | an empty term keeps every product |
| Inventario.FiltradosKeepsOrder | src/app/admin/inventario/page.tsx:183-186 | the filter distributes over concatenation, so order is kept |
| Inventario.InventarioPage.FetchProductos | src/app/admin/inventario/page.tsx:42-54 | the rows when configured and returned, else empty; loading ends; families, form, search and edit state stay |
| Inventario.InventarioPage.FetchFamilias | src/app/admin/inventario/page.tsx:31-40 | the families when configured and returned, else empty; every other field stays |
| Inventario.InventarioPage.CrearProducto | src/app/admin/inventario/page.tsx:56-114 | no name or price sends nothing; writes the sanitised create payload, retrying once without `familia` after a family-related error; the form resets on success; the lists, loading flag, search and edit state stay |
| Inventario.InventarioPage.GuardarEdicion | src/app/admin/inventario/page.tsx:116-171 | as written: nothing is ever written; the error is alerted unless it mentions `familia`; edit mode and every other field stay |
| Inventario.InventarioPage.GuardarEdicionIntended | src/app/admin/inventario/page.tsx:116-171 | corrected: writes the sanitised edit payload, retrying once without `familia`; success leaves edit mode; any alert keeps it; the lists, form, loading flag and search stay |
| AdminClientesRoute.FindUser | src/app/api/admin/clientes/route.ts:50-53 | the first auth user with the id, or none when no user has it |
| AdminClientesRoute.Join | src/app/api/admin/clientes/route.ts:49-56 | one entry per profile in the same order; sign-in time from the matching auth user; placeholder `********`; a null list gives `[]` |
| AdminClientesRoute.NoAuthUserNoSignIn | src/app/api/admin/clientes/route.ts:50-53 | without a matching auth user there is no sign-in time |
| AdminClientesRoute.JoinConcat | src/app/api/admin/clientes/route.ts:49-56 | the join distributes over concatenation of profiles |
| AdminClientesRoute.Get | src/app/api/admin/clientes/route.ts:9-62 | a `relationship` error retries with `*`; other errors give 500; rows give the join |
| AdminClientesRoute.Delete | src/app/api/admin/clientes/route.ts:64-87 | no id or configuration gives 400 and no operation; an auth error stops after the auth delete; otherwise auth, profile, addresses in that order |
| AdminClientesRoute.UpdateData | src/app/api/admin/clientes/route.ts:107-113 | `updated_at` plus exactly the defined fields, with their values (null kept) |
| AdminClientesRoute.EmptyUpdateOnlyStamps | src/app/api/admin/clientes/route.ts:107-113 | a body without fields updates only `updated_at` |
| AdminClientesRoute.Put | src/app/api/admin/clientes/route.ts:89-126 | a bad body gives 500; no id or configuration gives 400; a non-empty email updates auth first, and an auth error aborts the profile update |
| AdminClientes.Filtrados | src/app/admin/clientes/page.tsx:56-59 | a client is kept iff the lower-cased name includes the lower-cased query or the phone includes the raw query; missing fields read as `""` |
| AdminClientes.EmptyQueryKeepsAll | src/app/admin/clientes/page.tsx:56-59 | an empty query keeps every client |
| AdminClientes.FiltradosKeepsOrder | src/app/admin/clientes/page.tsx:56-59 | the filter distributes over concatenation, so order is kept |
| AdminClientes.NamelessFoundByPhone | src/app/admin/clientes/page.tsx:57-58 | a client without a name matches a non-empty query iff the phone includes it |
| AdminClientes.GestionClientes.FetchClientes | src/app/admin/clientes/page.tsx:44-54 | an error leaves the list unchanged; rows (null gives `[]`) replace it; loading ends either way |
| BackfillFamilias.Norm | scripts/backfill_familias.mjs:42 | an empty family becomes `General` |
| BackfillFamilias.BlankNamesNoFamily | scripts/backfill_familias.mjs:42-43 | a whitespace-only family normalises to `""` and is skipped |
| BackfillFamilias.NormIdempotent | scripts/backfill_familias.mjs:71 | normalising a normalised name changes nothing |
| BackfillFamilias.NamesOf | scripts/backfill_familias.mjs:41-42 | the normalised name of each product, in order |
| BackfillFamilias.FamilyNames | scripts/backfill_familias.mjs:40-46 | defines `Array.from(familiasSet)`; no name is empty. Its full contents are in `FamilyNamesContents` and `FamilyNamesSnoc` |
| BackfillFamilias.FamilyNamesContents | scripts/backfill_familias.mjs:40-46 | exactly the non-empty normalised names, without repeats |
| BackfillFamilias.FamilyNamesSnoc | scripts/backfill_familias.mjs:41-44 | one more product adds its name iff it is new and non-empty |
| BackfillFamilias.InsertOne | scripts/backfill_familias.mjs:51-58 | a name already present is a tolerated unique violation; a new one is appended |
| BackfillFamilias.AfterInsert | scripts/backfill_familias.mjs:50-61 | defines the insert loop; it adds at most one row per name. Its contents are in `AfterInsertContents` |
| BackfillFamilias.AfterInsertContents | scripts/backfill_familias.mjs:50-61 | names stay unique, old rows are kept, and the names are the old ones plus the inserted ones |
| BackfillFamilias.Pairs | scripts/backfill_familias.mjs:66 | each family as a (name, id) pair, in order |
| BackfillFamilias.FindByName | scripts/backfill_familias.mjs:87 | found iff a family has the name, and the found one has it |
| BackfillFamilias.GeneralAlwaysFound | scripts/backfill_familias.mjs:84-87 | after inserting `General` it is always found |
| BackfillFamilias.EmptyMapAssignsNothing | scripts/backfill_familias.mjs:64-77 | with no families read back, the map is empty and no product is updated |
| BackfillFamilias.Assignments | scripts/backfill_familias.mjs:70-77 | defines the updates the loop issues; at most one per product. Their contents are in `AssignmentsIff` |
| BackfillFamilias.AssignmentsIff | scripts/backfill_familias.mjs:70-77 | a product gets an update iff its normalised name maps to a non-empty id, and then it gets that id |
| BackfillFamilias.SetFamiliaId | scripts/backfill_familias.mjs:74 | only products with the id get the family id |
| BackfillFamilias.ApplyAll | scripts/backfill_familias.mjs:70-77 | defines the table after the updates in order; same length. Its effect is in `ApplyAllUntouched` and `UnmappedUntouched` |
| BackfillFamilias.ApplyAllUntouched | scripts/backfill_familias.mjs:70-77 | a product named by no update is unchanged |
| BackfillFamilias.UnmappedUntouched | scripts/backfill_familias.mjs:72-73 | a product whose name has no id is unchanged |
| BackfillFamilias.AssignWhereNull | scripts/backfill_familias.mjs:89 | only products without a family id get `General`'s id |
| BackfillFamilias.Take | scripts/backfill_familias.mjs:35 | the first at most n products |
| BackfillFamilias.Database.CollectNames | scripts/backfill_familias.mjs:40-46 | the loop yields `FamilyNames` |
| BackfillFamilias.Database.InsertFamilias | scripts/backfill_familias.mjs:50-61 | the families become `AfterInsert`; products are unchanged |
| BackfillFamilias.Database.BuildMap | scripts/backfill_familias.mjs:64-66 | the loop yields the last-wins map of names to ids |
| BackfillFamilias.Database.AssignFamilias | scripts/backfill_familias.mjs:70-77 | the updates issued are `Assignments`, and the products become their application |
| BackfillFamilias.Database.AssignGeneral | scripts/backfill_familias.mjs:82-92 | `General` is inserted if missing and assigned to products without a family id |
| BackfillFamilias.Database.Run | scripts/backfill_familias.mjs:28-100 | a good read runs the main path and exits 0; a column error about `familia` runs the fallback and exits 0; any other error exits 1 with nothing changed |

## Left out

- Remote calls are not modelled as calls. Every reply of the hosted database or
  of `fetch` (rows, counts, errors, HTTP status, a throw) is a parameter of the
  operation that receives it.
- The backend's matching (ILIKE, `or`, embedded relations) is not modelled. For
  the three list routes that build a query (`DevolucionesRoute`,
  `AdminDevolucionesRoute` and `AdminPedidosRoute`) the model keeps that query
  value; only the date bounds are given a meaning (`QueryBuilder.PassesBounds`).
  The search route builds request URLs instead; see `SearchRoute.Get` below.
- Realtime subscriptions, `setTimeout` timers and debounce are left out. They
  only trigger refetches.
  - The toast's removal timer is modelled as the delay it would be scheduled with.
- Rendering, `alert`/`prompt`/`confirm`, toasts shown by callers and redirects are
  left out. A prompt's answer is a parameter, and an alert is an output value.
- The refetch after `cambiarEstado` and `bulkMarkAsSent` is a separate call of the
  fetch method. Each admin page's fetch is not chained to it.
- Clocks are parameters (`now`, in milliseconds). `setDate(+30)` is +30 days on
  that timeline, so local calendar and DST effects are not modelled.
- Prices are integer cents. `Number`, `parseFloat`, `NaN` and `toFixed` are not
  modelled; the parsed price is an input.
- JSON parse failures are modelled as an absent body.
- Lower-casing covers ASCII letters only. `trim` removes exactly ECMAScript's
  WhiteSpace and LineTerminator characters (`Text.IsSpace`).
- SearchRoute.Get: the listing of recent products passes the backend's rows
  through. Their `created_at` descending order and the `limit` are the
  backend's, so they are not stated.
- SearchRoute.Get: the four sub-query URLs are not modelled. Each searches one
  column with `ilike` (`nombre`, `familias.nombre`, `descripcion`, `categoria`)
  and asks for at most `limit * 4` rows (src/app/api/search/route.ts:30), and
  their replies are inputs. The response's `total` is therefore the number of
  items merged from those capped replies, not the number of matching products.
- SearchRoute.Get: a sub-query whose `fetch` throws is not caught in the code,
  so the response is a 500. The model follows the code here.
- SearchRoute.Push: `null` entries in a sub-result are not modelled, because
  rows are records.
- SolicitarDevolucion.FormularioDevolucion.HandleSubmit: the quantity bounds
  `min`/`max` are enforced by the browser, not by the submit code. The model
  states the bounds of the input only (`DefaultQuantityInRange`).
- SolicitarDevolucion.FormularioDevolucion.HandleSubmit: the page inserts into
  the table directly, so it skips the API's duplicate check. The model states
  only that the row is the same (`SameRowAsApi`).
- `.single()` is "exactly one matching row". For an update followed by
  `.single()` the model (`AdminDevolucionesRoute.ReturnsTable.Patch`) leaves
  the table unchanged unless exactly one row matches. That is what PostgREST's
  rollback of such an update shows; the transaction itself is not modelled.
- Inventario: `eliminarProducto` and family creation are not modelled. They are
  a single remote call each.
- Inventario: JavaScript numbers are integers.
- Inventario.KeyString: the key string of an array or object value is not the
  exact one JavaScript builds.
- Inventario.InventarioPage.CrearProducto: a throw from the retry is not
  modelled; the retry outcome is only an error or success.
- BackfillFamilias: database-assigned ids are serial strings.
- BackfillFamilias.Database.Run: a failed read of all families (lines 64 and 86)
  is not a parameter; the model always reads the table back. Such a failure
  gives an empty map, so the main path updates no product
  (`EmptyMapAssignsNothing`) and the fallback finds no `General`.
- BackfillFamilias.Database.AssignFamilias: errors from the per-product
  `update` are only logged by the script; the model takes every update as
  applied.
- BackfillFamilias: insert errors other than a unique violation are not
  modelled, and the unique constraint on names is taken as given.
- BackfillFamilias.Database.CollectNames: the `Set` is modelled as a sequence
  without repeats, kept in insertion order.
- AdminClientesRoute.Delete: errors from the profile and address deletes are
  ignored, as in the code, so the model has no parameter for them.
- AdminClientesRoute.Put: email truthiness is modelled for strings only.
- AdminPedidosRoute.BuildListQuery: the conversion of the `from`/`to` strings into
  timestamps is not modelled; the bounds are given as timestamps. The orders
  page sends dates without a time, so `to` stands for that day's midnight and
  the day's later orders are dropped (`DateOnlyToExcludesRestOfDay`).
- AdminPedidos: the query string the orders page sends is not modelled. The
  returns page's is modelled (`AdminDevoluciones.RequestParams`).

## Findings

| source | as written | input that shows it | evidently intended | confidence | as-written member | corrected member |
|---|---|---|---|---|---|---|
| src/app/admin/inventario/page.tsx:139-140 | `if (!supabase)` reads the `const supabase` declared on the next line. This is in its temporal dead zone, so it throws `ReferenceError`. The catch (157-170) either alerts that error or retries through a `supabase` that is not in its scope. The edit is never written. | any click on save while editing a product | check the client, write the sanitised edit payload, and retry without `familia` after a family-related error | not executed | Inventario.InventarioPage.GuardarEdicion | Inventario.InventarioPage.GuardarEdicionIntended |
