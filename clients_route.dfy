/** The admin clients API (src/app/api/admin/clientes/route.ts): profiles
    joined with the auth users, deletion of a client in a fixed order, and a
    partial profile update. The auth service and the tables are reached
    through the requests each handler issues, which are returned in order. */
module AdminClientesRoute {
  import opened Common
  import opened Text

  /** A row of `perfiles`. */
  datatype Perfil = Perfil(id: string, nombre: string, telefono: string)

  /** A user of the auth service. */
  datatype AuthUser = AuthUser(id: string, lastSignInAt: Option<string>)

  /** A profile as the GET returns it. */
  datatype ClienteCompleto = ClienteCompleto(perfil: Perfil, lastSignInAt: Option<string>, passwordPlaceholder: string)

  const PASSWORD_PLACEHOLDER: string := "********"

  /** `users.find(u => u.id === id)`. */
  function FindUser(users: seq<AuthUser>, id: string): (r: Option<AuthUser>)
    ensures r.Some? ==> r.value in users && r.value.id == id
    ensures r.None? ==> forall i :: 0 <= i < |users| ==> users[i].id != id
    ensures r.Some? ==>
      exists i :: 0 <= i < |users| && users[i] == r.value && (forall j :: 0 <= j < i ==> users[j].id != id)
  {
    if users == [] then None
    else if users[0].id == id then Some(users[0])
    else
      var rest := FindUser(users[1..], id);
      assert rest.Some? ==>
        exists i :: 0 <= i < |users| && users[i] == rest.value && (forall j :: 0 <= j < i ==> users[j].id != id) by {
        if rest.Some? {
          var i :| 0 <= i < |users[1..]| && users[1..][i] == rest.value &&
                   (forall j :: 0 <= j < i ==> users[1..][j].id != id);
          assert users[i + 1] == rest.value;
          assert forall j :: 0 <= j < i + 1 ==> users[j].id != id by {
            assert forall j :: 1 <= j < i + 1 ==> users[j] == users[1..][j - 1];
          }
        }
      }
      rest
  }

  /** `(perfiles || []).map(…)`: one entry per profile, in the same order,
      with the sign-in time of the auth user with the same id. */
  function Join(perfiles: Option<seq<Perfil>>, users: seq<AuthUser>): (r: seq<ClienteCompleto>)
    ensures perfiles.None? ==> r == []
    ensures perfiles.Some? ==> |r| == |perfiles.value|
    ensures perfiles.Some? ==> forall i :: 0 <= i < |r| ==>
      r[i].perfil == perfiles.value[i] && r[i].passwordPlaceholder == PASSWORD_PLACEHOLDER &&
      r[i].lastSignInAt == (if FindUser(users, perfiles.value[i].id).Some?
                            then FindUser(users, perfiles.value[i].id).value.lastSignInAt else None)
  {
    var ps := if perfiles.Some? then perfiles.value else [];
    seq(|ps|, i requires 0 <= i < |ps| =>
      var authUser := FindUser(users, ps[i].id);
      ClienteCompleto(ps[i], if authUser.Some? then authUser.value.lastSignInAt else None, PASSWORD_PLACEHOLDER))
  }

  /** A profile without an auth user gets no sign-in time. */
  lemma NoAuthUserNoSignIn(perfiles: seq<Perfil>, users: seq<AuthUser>, i: int)
    requires 0 <= i < |perfiles|
    requires forall j :: 0 <= j < |users| ==> users[j].id != perfiles[i].id
    ensures Join(Some(perfiles), users)[i].lastSignInAt.None?
  {
  }

  /** The join keeps the order of the profiles it is given: joining two
      lists is joining each and concatenating. */
  lemma JoinConcat(a: seq<Perfil>, b: seq<Perfil>, users: seq<AuthUser>)
    ensures Join(Some(a + b), users) == Join(Some(a), users) + Join(Some(b), users)
  {
  }

  // ---------------------------------------------------------------------
  // GET
  // ---------------------------------------------------------------------

  /** The reply to a profiles query: the rows (`None` for null) or an error. */
  datatype PerfilesReply = PerfilesRows(data: Option<seq<Perfil>>) | PerfilesError(message: string)

  datatype ClientesResponse = Clientes(items: seq<ClienteCompleto>) | ClientesFailed(status: int, error: string)

  /** `GET /api/admin/clientes`: `selects` lists the profile queries issued,
      by their `select` argument; `second` answers the retry, `authUsers`
      the user listing (`None` when it gave no data). */
  method Get(configured: bool, first: PerfilesReply, second: PerfilesReply, authUsers: Option<seq<AuthUser>>)
    returns (selects: seq<string>, resp: ClientesResponse)
    ensures !configured ==> selects == [] && resp.ClientesFailed? && resp.status == 500
    ensures configured ==> |selects| >= 1 && selects[0] == "*, direcciones(*)"
    // a relationship error is retried once, without the addresses
    ensures configured && first.PerfilesError? && Includes(first.message, "relationship") ==>
      selects == ["*, direcciones(*)", "*"]
    ensures configured && !(first.PerfilesError? && Includes(first.message, "relationship")) ==>
      selects == ["*, direcciones(*)"]
    ensures configured && first.PerfilesError? && !Includes(first.message, "relationship") ==>
      resp == ClientesFailed(500, first.message)
    ensures configured && first.PerfilesRows? ==>
      resp == Clientes(Join(first.data, if authUsers.Some? then authUsers.value else []))
    ensures configured && first.PerfilesError? && Includes(first.message, "relationship") ==>
      resp == match second
              case PerfilesError(m) => ClientesFailed(500, m)
              case PerfilesRows(data) => Clientes(Join(data, if authUsers.Some? then authUsers.value else []))
  {
    if !configured {
      return [], ClientesFailed(500, "Faltan variables de entorno en Vercel");
    }
    selects := ["*, direcciones(*)"];
    var perfiles: Option<seq<Perfil>>;
    if first.PerfilesError? && Includes(first.message, "relationship") {
      selects := selects + ["*"];
      if second.PerfilesError? {
        return selects, ClientesFailed(500, second.message);
      }
      perfiles := second.data;
    } else if first.PerfilesError? {
      return selects, ClientesFailed(500, first.message);
    } else {
      perfiles := first.data;
    }
    var users := if authUsers.Some? then authUsers.value else [];
    resp := Clientes(Join(perfiles, users));
  }

  // ---------------------------------------------------------------------
  // DELETE and PUT
  // ---------------------------------------------------------------------

  /** A request to the auth service or a table. */
  datatype Op =
    | DeleteAuthUser(id: string)
    | DeletePerfil(id: string)
    | DeleteDirecciones(clienteId: string)
    | UpdateAuthEmail(id: string, email: string)
    | UpdatePerfil(id: string, data: map<string, Option<string>>)

  datatype MessageResponse = Message(text: string) | Failed(status: int, error: string)

  /** `DELETE /api/admin/clientes?id=…`; `id` is "" when absent. The auth
      user goes first; if that fails nothing else is deleted. */
  method Delete(configured: bool, id: string, authError: Option<string>) returns (ops: seq<Op>, resp: MessageResponse)
    ensures id == "" || !configured ==>
      ops == [] && resp == Failed(400, "ID faltante o error de configuración")
    ensures id != "" && configured && authError.Some? ==>
      ops == [DeleteAuthUser(id)] && resp == Failed(500, authError.value)
    ensures id != "" && configured && authError.None? ==>
      ops == [DeleteAuthUser(id), DeletePerfil(id), DeleteDirecciones(id)] &&
      resp == Message("Cliente eliminado correctamente")
  {
    if id == "" || !configured {
      return [], Failed(400, "ID faltante o error de configuración");
    }
    ops := [DeleteAuthUser(id)];
    if authError.Some? {
      return ops, Failed(500, authError.value);
    }
    ops := ops + [DeletePerfil(id)];
    ops := ops + [DeleteDirecciones(id)];
    resp := Message("Cliente eliminado correctamente");
  }

  /** A body field: absent, `null`, or a string. */
  datatype Field = Undefined | Null | Given(text: string)

  /** The body of a PUT; a `null` body reads as all fields absent. */
  datatype PutBody = PutBody(id: string, nombre: Field, email: Field, telefono: Field, direccion: Field)

  function FieldValue(f: Field): Option<string>
  {
    if f.Given? then Some(f.text) else None
  }

  /** `updateData`: `updated_at` plus exactly the fields the body defines,
      `null` included. */
  function UpdateData(b: PutBody, now: string): (d: map<string, Option<string>>)
    ensures d.Keys == {"updated_at"} +
      (if !b.nombre.Undefined? then {"nombre"} else {}) +
      (if !b.email.Undefined? then {"email"} else {}) +
      (if !b.telefono.Undefined? then {"telefono"} else {}) +
      (if !b.direccion.Undefined? then {"direccion"} else {})
    ensures d["updated_at"] == Some(now)
    ensures "nombre" in d ==> d["nombre"] == FieldValue(b.nombre)
    ensures "email" in d ==> d["email"] == FieldValue(b.email)
    ensures "telefono" in d ==> d["telefono"] == FieldValue(b.telefono)
    ensures "direccion" in d ==> d["direccion"] == FieldValue(b.direccion)
  {
    var d0 := map["updated_at" := Some(now)];
    var d1 := if !b.nombre.Undefined? then d0["nombre" := FieldValue(b.nombre)] else d0;
    var d2 := if !b.email.Undefined? then d1["email" := FieldValue(b.email)] else d1;
    var d3 := if !b.telefono.Undefined? then d2["telefono" := FieldValue(b.telefono)] else d2;
    if !b.direccion.Undefined? then d3["direccion" := FieldValue(b.direccion)] else d3
  }

  /** An update that defines no field touches only `updated_at`. */
  lemma EmptyUpdateOnlyStamps(id: string, now: string)
    ensures UpdateData(PutBody(id, Undefined, Undefined, Undefined, Undefined), now) ==
            map["updated_at" := Some(now)]
  {
  }

  /** `PUT /api/admin/clientes`: `body` is `None` when the request is not
      JSON; `now` is `new Date().toISOString()`. A non-empty email is
      changed in the auth service first, and an error there stops the
      profile update. */
  method Put(configured: bool, body: Option<PutBody>, now: string, authError: Option<string>,
             profileError: Option<string>) returns (ops: seq<Op>, resp: MessageResponse)
    ensures body.None? ==> ops == [] && resp.Failed? && resp.status == 500
    ensures body.Some? && (body.value.id == "" || !configured) ==>
      ops == [] && resp == Failed(400, "ID faltante o error de configuración")
    ensures body.Some? && body.value.id != "" && configured ==>
      var b := body.value;
      var emailSet := b.email.Given? && b.email.text != "";
      var authOps := if emailSet then [UpdateAuthEmail(b.id, b.email.text)] else [];
      if emailSet && authError.Some? then
        ops == authOps && resp == Failed(500, authError.value)
      else
        ops == authOps + [UpdatePerfil(b.id, UpdateData(b, now))] &&
        resp == (if profileError.Some? then Failed(500, profileError.value)
                 else Message("Cliente actualizado correctamente"))
  {
    if body.None? {
      return [], Failed(500, "Unexpected end of JSON input");
    }
    var b := body.value;
    if b.id == "" || !configured {
      return [], Failed(400, "ID faltante o error de configuración");
    }
    ops := [];
    if b.email.Given? && b.email.text != "" {
      ops := ops + [UpdateAuthEmail(b.id, b.email.text)];
      if authError.Some? {
        return ops, Failed(500, authError.value);
      }
    }
    var updateData := map["updated_at" := Some(now)];
    if !b.nombre.Undefined? {
      updateData := updateData["nombre" := FieldValue(b.nombre)];
    }
    if !b.email.Undefined? {
      updateData := updateData["email" := FieldValue(b.email)];
    }
    if !b.telefono.Undefined? {
      updateData := updateData["telefono" := FieldValue(b.telefono)];
    }
    if !b.direccion.Undefined? {
      updateData := updateData["direccion" := FieldValue(b.direccion)];
    }
    ops := ops + [UpdatePerfil(b.id, updateData)];
    if profileError.Some? {
      return ops, Failed(500, profileError.value);
    }
    resp := Message("Cliente actualizado correctamente");
  }
}
