/** The inventory screen (src/app/admin/inventario/page.tsx): the payloads
    `crearProducto` and `guardarEdicion` send, their sanitisation, the retry
    without the legacy `familia` column, and the search filter. */
module Inventario {
  import opened Common
  import opened Text

  // ---------------------------------------------------------------------
  // JSON objects
  // ---------------------------------------------------------------------

  /** A JavaScript value as far as the payload code inspects it: `typeof`
      and `null`. Numbers are integers here. */
  datatype JsValue = JNull | JUndefined | JStr(s: string) | JNum(n: int) | JBool(b: bool) | JObject | JArray

  /** A plain object as its `Object.entries`, in insertion order. */
  type Obj = seq<(string, JsValue)>

  predicate UniqueKeys(o: Obj)
  {
    forall i, j :: 0 <= i < j < |o| ==> o[i].0 != o[j].0
  }

  /** `o[k]`, `None` for a key the object does not have. */
  function Get(o: Obj, k: string): (r: Option<JsValue>)
    ensures r.Some? <==> exists i :: 0 <= i < |o| && o[i].0 == k
    ensures r.Some? ==> (k, r.value) in o
  {
    if o == [] then None
    else if o[0].0 == k then Some(o[0].1)
    else
      var rest := Get(o[1..], k);
      assert rest.Some? ==> exists i :: 0 <= i < |o| && o[i].0 == k by {
        if rest.Some? {
          var j :| 0 <= j < |o[1..]| && o[1..][j].0 == k;
          assert o[j + 1].0 == k;
        }
      }
      rest
  }

  /** `o[k] = v`: an existing key keeps its place, a new one goes last. */
  function Put(o: Obj, k: string, v: JsValue): (r: Obj)
    ensures Get(r, k) == Some(v)
    ensures forall k' :: k' != k ==> Get(r, k') == Get(o, k')
  {
    if o == [] then [(k, v)]
    else if o[0].0 == k then [(k, v)] + o[1..]
    else [o[0]] + Put(o[1..], k, v)
  }

  /** `delete o[k]`. */
  function Delete(o: Obj, k: string): (r: Obj)
    ensures Get(r, k).None?
    ensures forall k' :: k' != k ==> Get(r, k') == Get(o, k')
  {
    if o == [] then []
    else if o[0].0 == k then Delete(o[1..], k)
    else [o[0]] + Delete(o[1..], k)
  }

  /** The sanitising filter: not the `familias` relation, and only `null`
      or a string, number or boolean. */
  predicate KeepEntry(e: (string, JsValue))
  {
    e.0 != "familias" && (e.1.JNull? || e.1.JStr? || e.1.JNum? || e.1.JBool?)
  }

  /** `Object.fromEntries(Object.entries(payload).filter(…))`. */
  function Sanitize(o: Obj): (r: Obj)
    ensures forall e :: e in r <==> e in o && KeepEntry(e)
  {
    Filter(o, KeepEntry)
  }

  /** Sanitising never adds a key, keeps exactly the null and primitive
      values, and a sanitised object is left as it is. */
  lemma SanitizeIdempotent(o: Obj)
    ensures Sanitize(Sanitize(o)) == Sanitize(o)
    ensures forall k :: Get(Sanitize(o), k).Some? ==> Get(o, k).Some?
  {
    var r := Sanitize(o);
    assert forall i :: 0 <= i < |r| ==> r[i] in r;
    FilterKeepsAll(r, KeepEntry);
    forall k | Get(r, k).Some? ensures Get(o, k).Some? {
      var v := Get(r, k).value;
      assert (k, v) in o;
      var i :| 0 <= i < |o| && o[i] == (k, v);
    }
  }

  /** In an object with distinct keys, sanitising keeps a key's value
      exactly when it is null or primitive, and `familias` never survives. */
  lemma {:induction false} SanitizeGet(o: Obj, k: string)
    requires UniqueKeys(o)
    ensures Get(Sanitize(o), k) == if Get(o, k).Some? && KeepEntry((k, Get(o, k).value)) then Get(o, k) else None
  {
    if o != [] {
      assert UniqueKeys(o[1..]);
      SanitizeGet(o[1..], k);
      assert Sanitize(o) == (if KeepEntry(o[0]) then [o[0]] else []) + Sanitize(o[1..]);
      if o[0].0 == k {
        assert forall i :: 0 <= i < |o[1..]| ==> o[1..][i].0 != k by {
          assert forall i :: 1 <= i < |o| ==> o[i].0 != o[0].0;
        }
        assert Get(o[1..], k).None?;
      }
    }
  }

  // ---------------------------------------------------------------------
  // Families and the payloads
  // ---------------------------------------------------------------------

  datatype Familia = Familia(id: string, nombre: string)

  /** `familias.find((x) => String(x.id) === String(key))`. */
  function FindFamilia(familias: seq<Familia>, key: string): (r: Option<Familia>)
    ensures r.Some? ==> r.value in familias && r.value.id == key
    ensures r.None? ==> forall i :: 0 <= i < |familias| ==> familias[i].id != key
  {
    if familias == [] then None
    else if familias[0].id == key then Some(familias[0])
    else FindFamilia(familias[1..], key)
  }

  /** The creation form: every field is the text typed. */
  datatype NuevoProducto = NuevoProducto(nombre: string, precio: string, familiaId: string, imagenUrl: string)

  const EMPTY_FORM: NuevoProducto := NuevoProducto("", "", "", "")

  /** `{ nombre, precio, imagen_url: nuevoP.imagen_url || null }`. */
  function BasePayload(f: NuevoProducto, precioNum: int): (o: Obj)
    ensures Get(o, "nombre") == Some(JStr(f.nombre)) && Get(o, "precio") == Some(JNum(precioNum))
    ensures Get(o, "imagen_url") == Some(if f.imagenUrl != "" then JStr(f.imagenUrl) else JNull)
    ensures forall k :: k != "nombre" && k != "precio" && k != "imagen_url" ==> Get(o, k).None?
  {
    var o1 := Put([], "nombre", JStr(f.nombre));
    var o2 := Put(o1, "precio", JNum(precioNum));
    Put(o2, "imagen_url", if f.imagenUrl != "" then JStr(f.imagenUrl) else JNull)
  }

  /** The insert payload of `crearProducto`; `precioNum` is
      `parseFloat(nuevoP.precio)`. */
  function CreatePayload(f: NuevoProducto, precioNum: int, familias: seq<Familia>): (o: Obj)
    ensures Get(o, "familia_id") == if f.familiaId != "" then Some(JStr(f.familiaId)) else None
    // the legacy name goes along exactly when the chosen family is known
    ensures Get(o, "familia") ==
      if f.familiaId != "" && FindFamilia(familias, f.familiaId).Some?
      then Some(JStr(FindFamilia(familias, f.familiaId).value.nombre)) else None
  {
    var base := BasePayload(f, precioNum);
    if f.familiaId == "" then base
    else WithFamilia(base, f.familiaId, FindFamilia(familias, f.familiaId))
  }

  /** The rest of the insert payload: name, price and image as typed, and
      no `familias` relation. */
  lemma CreatePayloadFields(f: NuevoProducto, precioNum: int, familias: seq<Familia>)
    ensures var o := CreatePayload(f, precioNum, familias);
      Get(o, "nombre") == Some(JStr(f.nombre)) && Get(o, "precio") == Some(JNum(precioNum)) &&
      Get(o, "imagen_url") == Some(if f.imagenUrl != "" then JStr(f.imagenUrl) else JNull) &&
      Get(o, "familias").None?
  {
    var base := BasePayload(f, precioNum);
    assert Get(base, "familias").None?;
    if f.familiaId != "" {
      var r := WithFamilia(base, f.familiaId, FindFamilia(familias, f.familiaId));
      assert CreatePayload(f, precioNum, familias) == r;
      assert Get(r, "familias") == Get(base, "familias");
    }
  }

  /** `payload.familia_id = id`, and `payload.familia = fam.nombre` when the
      family was found. */
  function WithFamilia(o: Obj, id: string, fam: Option<Familia>): (r: Obj)
    ensures Get(r, "familia_id") == Some(JStr(id))
    ensures Get(r, "familia") == if fam.Some? then Some(JStr(fam.value.nombre)) else Get(o, "familia")
    ensures forall k :: k != "familia_id" && k != "familia" ==> Get(r, k) == Get(o, k)
  {
    var withId := Put(o, "familia_id", JStr(id));
    if fam.Some? then Put(withId, "familia", JStr(fam.value.nombre)) else withId
  }

  /** JavaScript truthiness. */
  predicate Truthy(v: JsValue)
  {
    match v
    case JNull => false
    case JUndefined => false
    case JStr(s) => s != ""
    case JNum(n) => n != 0
    case JBool(b) => b
    case _ => true
  }

  /** `String(v)` for the values a family id can hold. */
  function KeyString(v: JsValue): string
  {
    match v
    case JStr(s) => s
    case JNum(n) => IntToString(n)
    case JBool(b) => if b then "true" else "false"
    case JNull => "null"
    case JUndefined => "undefined"
    case JObject => "[object Object]"
    case JArray => ""
  }

  /** The update payload of `guardarEdicion`: the edited row with the legacy
      `familia` refreshed from the chosen family, or both family columns
      cleared when none is chosen. `None` stands for `datosEdit == null`. */
  function EditPayload(datosEdit: Option<Obj>, familias: seq<Familia>): (o: Obj)
    ensures var d := if datosEdit.Some? then datosEdit.value else [];
      var famId := Get(d, "familia_id");
      if famId.Some? && Truthy(famId.value) then
        Get(o, "familia_id") == famId &&
        Get(o, "familia") == (if FindFamilia(familias, KeyString(famId.value)).Some?
                              then Some(JStr(FindFamilia(familias, KeyString(famId.value)).value.nombre))
                              else Get(d, "familia"))
      else
        Get(o, "familia_id") == Some(JNull) && Get(o, "familia") == Some(JNull)
    ensures var d := if datosEdit.Some? then datosEdit.value else [];
      forall k :: k != "familia" && k != "familia_id" ==> Get(o, k) == Get(d, k)
  {
    var d := if datosEdit.Some? then datosEdit.value else [];
    var famId := Get(d, "familia_id");
    if famId.Some? && Truthy(famId.value) then
      var fam := FindFamilia(familias, KeyString(famId.value));
      if fam.Some? then Put(d, "familia", JStr(fam.value.nombre)) else d
    else
      Put(Put(d, "familia", JNull), "familia_id", JNull)
  }

  /** The retry resends the same payload without the `familia` key and
      nothing else changes; dropping the key before or after sanitising
      gives the same object. */
  lemma {:induction false} RetryDropsOnlyFamilia(s: Obj)
    ensures Get(Delete(s, "familia"), "familia").None?
    ensures forall k :: k != "familia" ==> Get(Delete(s, "familia"), k) == Get(s, k)
    ensures Sanitize(Delete(s, "familia")) == Delete(Sanitize(s), "familia")
  {
    if s != [] {
      var x, t := s[0], s[1..];
      RetryDropsOnlyFamilia(t);
      var st := Sanitize(t);
      assert Sanitize(s) == if KeepEntry(x) then [x] + st else st;
      if x.0 != "familia" {
        var dt := Delete(t, "familia");
        assert Delete(s, "familia") == [x] + dt;
        assert ([x] + dt)[1..] == dt;
        assert Sanitize([x] + dt) == if KeepEntry(x) then [x] + Sanitize(dt) else Sanitize(dt);
        if KeepEntry(x) {
          assert ([x] + st)[1..] == st;
          assert Delete([x] + st, "familia") == [x] + Delete(st, "familia");
        }
      } else if KeepEntry(x) {
        assert ([x] + st)[1..] == st;
        assert Delete([x] + st, "familia") == Delete(st, "familia");
      }
    }
  }

  // ---------------------------------------------------------------------
  // Writes
  // ---------------------------------------------------------------------

  /** How a write went: it succeeded, it returned an error, or it threw
      (`message` is then `String(e)`). */
  datatype WriteOutcome = Done | Failed(message: string) | Threw(message: string)

  /** Whether `crearProducto` retries without `familia` after `first`. */
  predicate CreateRetries(first: WriteOutcome)
  {
    !first.Done? && Includes(ToLower(first.message), "familia")
  }

  /** Whether the edit retries without `familia` after `first`: an error that
      mentions the column or says it "could not find", or a throw that
      mentions the column. */
  predicate EditRetries(first: WriteOutcome)
  {
    match first
    case Done => false
    case Failed(m) => Includes(ToLower(m), "familia") || Includes(ToLower(m), "could not find")
    case Threw(m) => Includes(ToLower(m), "familia")
  }

  // ---------------------------------------------------------------------
  // The search filter
  // ---------------------------------------------------------------------

  /** A listed product: `familiaRel` is `familias?.nombre` (the relation's
      name, `None` when absent) and `familia` the legacy column ("" when null). */
  datatype Producto = Producto(id: string, nombre: string, familiaRel: Option<string>, familia: string)

  /** `p.familias?.nombre || p.familia || ''`. */
  function FamilyLabel(p: Producto): string
  {
    if p.familiaRel.Some? && p.familiaRel.value != "" then p.familiaRel.value else p.familia
  }

  predicate MatchesTerm(p: Producto, term: string)
  {
    Includes(ToLower(p.nombre), ToLower(term)) ||
    (FamilyLabel(p) != "" && Includes(ToLower(FamilyLabel(p)), ToLower(term)))
  }

  function MatchesFor(term: string): Producto -> bool
  {
    (p: Producto) => MatchesTerm(p, term)
  }

  /** `productosFiltrados`. */
  function Filtrados(productos: seq<Producto>, term: string): (r: seq<Producto>)
    ensures forall p :: p in r <==>
      p in productos &&
      (Includes(ToLower(p.nombre), ToLower(term)) ||
       (FamilyLabel(p) != "" && Includes(ToLower(FamilyLabel(p)), ToLower(term))))
  {
    Filter(productos, MatchesFor(term))
  }

  /** An empty search term keeps every product, in order. */
  lemma EmptyTermKeepsAll(productos: seq<Producto>)
    ensures Filtrados(productos, "") == productos
  {
    forall i | 0 <= i < |productos| ensures MatchesFor("")(productos[i]) {
      IncludesEmpty(ToLower(productos[i].nombre));
    }
    FilterKeepsAll(productos, MatchesFor(""));
  }

  /** Filtering keeps the listed order: it distributes over concatenation. */
  lemma FiltradosKeepsOrder(a: seq<Producto>, b: seq<Producto>, term: string)
    ensures Filtrados(a + b, term) == Filtrados(a, term) + Filtrados(b, term)
  {
    FilterConcat(a, b, MatchesFor(term));
  }

  // ---------------------------------------------------------------------
  // The screen
  // ---------------------------------------------------------------------

  class InventarioPage {
    var productos: seq<Producto>
    var familias: seq<Familia>
    var cargando: bool
    var nuevoP: NuevoProducto
    var terminoBusqueda: string
    var editandoId: Option<string>
    var datosEdit: Option<Obj>

    constructor ()
      ensures productos == [] && familias == [] && cargando && nuevoP == EMPTY_FORM
      ensures terminoBusqueda == "" && editandoId.None? && datosEdit.None?
    {
      productos := [];
      familias := [];
      cargando := true;
      nuevoP := EMPTY_FORM;
      terminoBusqueda := "";
      editandoId := None;
      datosEdit := None;
    }

    /** `fetchProductos` with the list the query returned (`None` for null). */
    method FetchProductos(configured: bool, data: Option<seq<Producto>>)
      modifies this
      ensures productos == if configured && data.Some? then data.value else []
      ensures !cargando
      ensures familias == old(familias) && nuevoP == old(nuevoP)
      ensures terminoBusqueda == old(terminoBusqueda) && editandoId == old(editandoId) && datosEdit == old(datosEdit)
    {
      if !configured {
        productos := [];
        cargando := false;
        return;
      }
      productos := if data.Some? then data.value else [];
      cargando := false;
    }

    /** `fetchFamilias`. */
    method FetchFamilias(configured: bool, data: Option<seq<Familia>>)
      modifies this
      ensures familias == if configured && data.Some? then data.value else []
      ensures productos == old(productos) && nuevoP == old(nuevoP) && cargando == old(cargando)
      ensures terminoBusqueda == old(terminoBusqueda) && editandoId == old(editandoId) && datosEdit == old(datosEdit)
    {
      familias := if configured && data.Some? then data.value else [];
    }

    /** `crearProducto`: `sent` lists the insert payloads in order; `first`
        is how the first insert went and `retryError` the retry's error. */
    method CrearProducto(configured: bool, precioNum: int, first: WriteOutcome, retryError: Option<string>)
      returns (sent: seq<Obj>, alert: Option<string>)
      modifies this
      ensures old(nuevoP).nombre == "" || old(nuevoP).precio == "" ==>
        sent == [] && alert == Some("Nombre y precio son obligatorios") && nuevoP == old(nuevoP)
      ensures old(nuevoP).nombre != "" && old(nuevoP).precio != "" && !configured ==>
        sent == [] && alert.Some? && nuevoP == old(nuevoP)
      ensures old(nuevoP).nombre != "" && old(nuevoP).precio != "" && configured ==>
        var s := Sanitize(CreatePayload(old(nuevoP), precioNum, familias));
        sent == (if CreateRetries(first) then [s, Delete(s, "familia")] else [s]) &&
        (alert.None? <==> first.Done? || (CreateRetries(first) && retryError.None?)) &&
        nuevoP == (if alert.None? then EMPTY_FORM else old(nuevoP))
      ensures familias == old(familias) && productos == old(productos) && cargando == old(cargando)
      ensures terminoBusqueda == old(terminoBusqueda) && editandoId == old(editandoId) && datosEdit == old(datosEdit)
    {
      if nuevoP.nombre == "" || nuevoP.precio == "" {
        return [], Some("Nombre y precio son obligatorios");
      }
      if !configured {
        return [], Some("Supabase no configurado. No se puede crear producto.");
      }
      var payload := CreatePayload(nuevoP, precioNum, familias);
      var sanitizedInsert := Sanitize(payload);
      sent := [sanitizedInsert];
      if first.Done? {
        nuevoP := EMPTY_FORM;
        return sent, None;
      }
      if Includes(ToLower(first.message), "familia") {
        var s2 := Delete(sanitizedInsert, "familia");
        sent := sent + [s2];
        if retryError.Some? {
          return sent, retryError;
        }
        nuevoP := EMPTY_FORM;
        return sent, None;
      }
      alert := Some(first.message);
    }

    /** `guardarEdicion` as written: the `try` block begins by reading
        `supabase` before its `const` declaration, so every call throws a
        ReferenceError whose text (`thrown`, as the engine words it) reaches
        the `catch`. There an error not mentioning `familia` is alerted; one
        that does would retry through a `supabase` that is not in scope and
        throw again. Either way nothing is written and the row stays in edit
        mode. */
    method GuardarEdicion(id: string, thrown: string) returns (sent: seq<Obj>, alert: Option<string>)
      modifies this
      ensures sent == []
      ensures alert == if Includes(ToLower(thrown), "familia") then None else Some(thrown)
      ensures editandoId == old(editandoId) && datosEdit == old(datosEdit)
      ensures productos == old(productos) && familias == old(familias)
      ensures nuevoP == old(nuevoP) && cargando == old(cargando) && terminoBusqueda == old(terminoBusqueda)
    {
      var payload := EditPayload(datosEdit, familias);
      var sanitizedPayload := Sanitize(payload);
      sent := [];
      if !Includes(ToLower(thrown), "familia") {
        alert := Some(thrown);
      } else {
        alert := None;
      }
    }

    /** `guardarEdicion` as evidently intended, with the configuration test
        the other writes make in place of the premature `supabase` check:
        the update is sent, retried without `familia` when the error calls
        for it, and edit mode ends on success. */
    method GuardarEdicionIntended(id: string, configured: bool, first: WriteOutcome, retryError: Option<string>)
      returns (sent: seq<Obj>, alert: Option<string>)
      modifies this
      ensures !configured ==> sent == [] && alert.Some? && editandoId == old(editandoId)
      ensures configured ==>
        var s := Sanitize(EditPayload(old(datosEdit), familias));
        sent == (if EditRetries(first) then [s, Delete(s, "familia")] else [s]) &&
        (alert.None? <==> first.Done? || (EditRetries(first) && retryError.None?))
      ensures alert.None? ==> editandoId.None? && datosEdit.None?
      ensures alert.Some? ==> editandoId == old(editandoId) && datosEdit == old(datosEdit)
      ensures productos == old(productos) && familias == old(familias)
      ensures nuevoP == old(nuevoP) && cargando == old(cargando) && terminoBusqueda == old(terminoBusqueda)
    {
      if !configured {
        return [], Some("Supabase no configurado. No se puede guardar la edición.");
      }
      var payload := EditPayload(datosEdit, familias);
      var sanitizedPayload := Sanitize(payload);
      sent := [sanitizedPayload];
      if first.Done? {
        editandoId := None;
        datosEdit := None;
        return sent, None;
      }
      if EditRetries(first) {
        sent := sent + [Delete(sanitizedPayload, "familia")];
        if retryError.Some? {
          return sent, retryError;
        }
        editandoId := None;
        datosEdit := None;
        return sent, None;
      }
      alert := Some(first.message);
    }
  }

}
