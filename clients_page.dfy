/** The admin clients screen (src/app/admin/clientes/page.tsx): the loaded
    profile list and its search filter. */
module AdminClientes {
  import opened Common
  import opened Text

  /** A profile as the screen lists it; `None` for a missing field. */
  datatype Cliente = Cliente(id: string, nombre: Option<string>, telefono: Option<string>)

  function NombreOf(c: Cliente): string
  {
    if c.nombre.Some? then c.nombre.value else ""
  }

  function TelefonoOf(c: Cliente): string
  {
    if c.telefono.Some? then c.telefono.value else ""
  }

  /** The search test: the lower-cased name contains the lower-cased query,
      or the phone contains the query as typed. */
  predicate Matches(c: Cliente, busqueda: string)
  {
    Includes(ToLower(NombreOf(c)), ToLower(busqueda)) || Includes(TelefonoOf(c), busqueda)
  }

  function MatchesFor(busqueda: string): Cliente -> bool
  {
    (c: Cliente) => Matches(c, busqueda)
  }

  /** `clientesFiltrados`. */
  function Filtrados(clientes: seq<Cliente>, busqueda: string): (r: seq<Cliente>)
    ensures |r| <= |clientes|
    ensures forall c :: c in r <==>
      c in clientes &&
      (Includes(ToLower(NombreOf(c)), ToLower(busqueda)) || Includes(TelefonoOf(c), busqueda))
  {
    Filter(clientes, MatchesFor(busqueda))
  }

  /** An empty query keeps every client, in order. */
  lemma EmptyQueryKeepsAll(clientes: seq<Cliente>)
    ensures Filtrados(clientes, "") == clientes
  {
    forall i | 0 <= i < |clientes| ensures MatchesFor("")(clientes[i]) {
      IncludesEmpty(TelefonoOf(clientes[i]));
    }
    FilterKeepsAll(clientes, MatchesFor(""));
  }

  /** The filter keeps the listed order. */
  lemma FiltradosKeepsOrder(a: seq<Cliente>, b: seq<Cliente>, busqueda: string)
    ensures Filtrados(a + b, busqueda) == Filtrados(a, busqueda) + Filtrados(b, busqueda)
  {
    FilterConcat(a, b, MatchesFor(busqueda));
  }

  /** A client without a name is found only through the phone. */
  lemma NamelessFoundByPhone(c: Cliente, busqueda: string)
    requires c.nombre.None? && busqueda != ""
    ensures Matches(c, busqueda) <==> Includes(TelefonoOf(c), busqueda)
  {
    assert ToLower(busqueda) != "";
    assert !Includes("", ToLower(busqueda));
  }

  class GestionClientes {
    var clientes: seq<Cliente>
    var busqueda: string
    var cargando: bool

    constructor ()
      ensures clientes == [] && busqueda == "" && cargando
    {
      clientes := [];
      busqueda := "";
      cargando := true;
    }

    /** `fetchClientes` with what the query returned. */
    method FetchClientes(data: Option<seq<Cliente>>, error: Option<string>)
      modifies this
      ensures error.None? ==> clientes == if data.Some? then data.value else []
      ensures error.Some? ==> clientes == old(clientes)
      ensures !cargando && busqueda == old(busqueda)
    {
      if error.None? {
        clientes := if data.Some? then data.value else [];
      }
      cargando := false;
    }
  }
}
