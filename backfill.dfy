/** The one-off backfill script (scripts/backfill_familias.mjs): it derives
    family names from the products' legacy `familia` text, inserts them
    into `familias` (tolerating names already there), maps names to ids and
    sets each product's `familia_id`; when the legacy column is missing it
    assigns a 'General' family to the products that have none. The two
    tables are the fields of `Database`; every write is applied to them. */
module BackfillFamilias {
  import opened Common
  import opened Text

  /** A row of `productos`; `familia` is "" when null. */
  datatype Producto = Producto(id: string, familia: string, familiaId: Option<string>)

  /** A row of `familias`. */
  datatype Familia = Familia(id: string, nombre: string)

  const DEFAULT_FAMILIA: string := "General"

  /** The products the script reads: `.limit(10000)`. */
  const READ_LIMIT: int := 10000

  /** `(p.familia || 'General').toString().trim()`. */
  function Norm(familia: string): (r: string)
    ensures familia == "" ==> r == DEFAULT_FAMILIA
  {
    assert Trim(DEFAULT_FAMILIA) == DEFAULT_FAMILIA by {
      assert TrimStart(DEFAULT_FAMILIA) == DEFAULT_FAMILIA;
    }
    Trim(OrDefault(familia, DEFAULT_FAMILIA))
  }

  /** A whitespace-only `familia` normalises to "" and so names no family. */
  lemma BlankNamesNoFamily(familia: string)
    requires familia != "" && forall i :: 0 <= i < |familia| ==> IsSpace(familia[i])
    ensures Norm(familia) == ""
  {
    TrimEmptyIffBlank(familia);
  }

  /** Normalising is idempotent on a name that is not blank. */
  lemma NormIdempotent(familia: string)
    requires Norm(familia) != ""
    ensures Norm(Norm(familia)) == Norm(familia)
  {
    TrimIdempotent(OrDefault(familia, DEFAULT_FAMILIA));
  }

  function NamesOf(ps: seq<Producto>): (r: seq<string>)
    ensures |r| == |ps| && forall i :: 0 <= i < |ps| ==> r[i] == Norm(ps[i].familia)
  {
    seq(|ps|, i requires 0 <= i < |ps| => Norm(ps[i].familia))
  }

  function IsNonEmpty(s: string): bool
  {
    s != ""
  }

  /** `Array.from(familiasSet)`: the non-empty normalised names, each once,
      in order of first appearance. */
  function FamilyNames(ps: seq<Producto>): (r: seq<string>)
    ensures forall n :: n in r ==> n != ""
  {
    Distinct(Filter(NamesOf(ps), IsNonEmpty))
  }

  /** The names inserted are distinct, none is blank, and they are exactly
      the normalised names of the products. */
  lemma FamilyNamesContents(ps: seq<Producto>)
    ensures forall n :: n in FamilyNames(ps) <==> n != "" && exists i :: 0 <= i < |ps| && Norm(ps[i].familia) == n
    ensures forall i, j :: 0 <= i < j < |FamilyNames(ps)| ==> FamilyNames(ps)[i] != FamilyNames(ps)[j]
  {
    var names := NamesOf(ps);
    var kept := Filter(names, IsNonEmpty);
    assert forall n :: n in FamilyNames(ps) <==> n in kept;
    assert forall n :: n in kept <==> n in names && n != "";
    forall n ensures n in names <==> exists i :: 0 <= i < |ps| && Norm(ps[i].familia) == n {
      if exists i :: 0 <= i < |ps| && Norm(ps[i].familia) == n {
        var i :| 0 <= i < |ps| && Norm(ps[i].familia) == n;
        assert names[i] == n;
      }
    }
  }

  /** Appending one product adds its name if it is new and not blank. */
  lemma FamilyNamesSnoc(ps: seq<Producto>, p: Producto)
    ensures FamilyNames(ps + [p]) ==
      var n := Norm(p.familia);
      if n != "" && n !in FamilyNames(ps) then FamilyNames(ps) + [n] else FamilyNames(ps)
  {
    var n := Norm(p.familia);
    assert NamesOf(ps + [p]) == NamesOf(ps) + [n];
    FilterConcat(NamesOf(ps), [n], IsNonEmpty);
    var kept := Filter(NamesOf(ps), IsNonEmpty);
    if n != "" {
      assert Filter([n], IsNonEmpty) == [n];
      assert (kept + [n])[..|kept + [n]| - 1] == kept;
    } else {
      assert Filter([n], IsNonEmpty) == [];
      assert kept + [] == kept;
    }
  }

  // ---------------------------------------------------------------------
  // The families table
  // ---------------------------------------------------------------------

  predicate HasName(rows: seq<Familia>, nombre: string)
  {
    exists i :: 0 <= i < |rows| && rows[i].nombre == nombre
  }

  /** The unique constraint on `familias.nombre`. */
  predicate UniqueNames(rows: seq<Familia>)
  {
    forall i, j :: 0 <= i < j < |rows| ==> rows[i].nombre != rows[j].nombre
  }

  /** One `insert([{ nombre }])`: a name already present is refused with
      a unique violation (23505) and the table is unchanged; otherwise the
      row gets the next serial id. */
  function InsertOne(rows: seq<Familia>, nombre: string): (r: seq<Familia>)
    ensures HasName(rows, nombre) ==> r == rows
    ensures !HasName(rows, nombre) ==> r == rows + [Familia(IntToString(|rows| + 1), nombre)]
  {
    if HasName(rows, nombre) then rows else rows + [Familia(IntToString(|rows| + 1), nombre)]
  }

  /** The insert loop over `names`. */
  function AfterInsert(rows: seq<Familia>, names: seq<string>): (r: seq<Familia>)
    ensures |rows| <= |r| <= |rows| + |names|
    decreases |names|
  {
    if names == [] then rows else AfterInsert(InsertOne(rows, names[0]), names[1..])
  }

  /** After the loop every name is in the table, nothing was removed, and
      the table still has distinct names: a violation stops nothing. */
  lemma {:induction false} AfterInsertContents(rows: seq<Familia>, names: seq<string>)
    requires UniqueNames(rows)
    ensures var r := AfterInsert(rows, names);
      UniqueNames(r) && |rows| <= |r| && r[..|rows|] == rows &&
      forall n :: HasName(r, n) <==> HasName(rows, n) || n in names
    decreases |names|
  {
    if names != [] {
      var next := InsertOne(rows, names[0]);
      if !HasName(rows, names[0]) {
        assert next[|rows|].nombre == names[0];
        forall n ensures HasName(next, n) <==> HasName(rows, n) || n == names[0] {
          if HasName(next, n) && n != names[0] {
            var i :| 0 <= i < |next| && next[i].nombre == n;
            assert rows[i].nombre == n;
          }
          if HasName(rows, n) {
            var i :| 0 <= i < |rows| && rows[i].nombre == n;
            assert next[i].nombre == n;
          }
        }
      }
      AfterInsertContents(next, names[1..]);
      var r := AfterInsert(next, names[1..]);
      assert r[..|rows|] == r[..|next|][..|rows|];
      forall n ensures HasName(r, n) <==> HasName(rows, n) || n in names {
        assert n in names <==> n == names[0] || n in names[1..];
      }
    }
  }

  /** `allFamilias.map(f => [f.nombre, f.id])`. */
  function Pairs(fams: seq<Familia>): (r: seq<(string, string)>)
    ensures |r| == |fams| && forall i :: 0 <= i < |fams| ==> r[i] == (fams[i].nombre, fams[i].id)
  {
    seq(|fams|, i requires 0 <= i < |fams| => (fams[i].nombre, fams[i].id))
  }

  function FindByName(rows: seq<Familia>, nombre: string): (r: Option<Familia>)
    ensures r.Some? ==> r.value in rows && r.value.nombre == nombre
    ensures r.None? <==> !HasName(rows, nombre)
  {
    if rows == [] then None
    else if rows[0].nombre == nombre then Some(rows[0])
    else
      var rest := FindByName(rows[1..], nombre);
      assert HasName(rows, nombre) <==> HasName(rows[1..], nombre) by {
        if HasName(rows, nombre) {
          var i :| 0 <= i < |rows| && rows[i].nombre == nombre;
          assert rows[1..][i - 1].nombre == nombre;
        }
        if HasName(rows[1..], nombre) {
          var i :| 0 <= i < |rows[1..]| && rows[1..][i].nombre == nombre;
          assert rows[i + 1].nombre == nombre;
        }
      }
      rest
  }

  /** After the insert of 'General', whether it succeeded or the name was
      there already, the lookup finds it. */
  lemma GeneralAlwaysFound(rows: seq<Familia>)
    ensures FindByName(InsertOne(rows, DEFAULT_FAMILIA), DEFAULT_FAMILIA).Some?
  {
    var r := InsertOne(rows, DEFAULT_FAMILIA);
    if !HasName(rows, DEFAULT_FAMILIA) {
      assert r[|rows|].nombre == DEFAULT_FAMILIA;
    }
  }

  // ---------------------------------------------------------------------
  // Assigning families to products
  // ---------------------------------------------------------------------

  /** The updates the assignment loop issues, as (product id, family id):
      one per product whose normalised name has a non-empty id in `m`. */
  function Assignments(ps: seq<Producto>, m: map<string, string>): (r: seq<(string, string)>)
    ensures |r| <= |ps|
  {
    if ps == [] then []
    else
      var last := ps[|ps| - 1];
      var n := Norm(last.familia);
      Assignments(ps[..|ps| - 1], m) + (if n in m && m[n] != "" then [(last.id, m[n])] else [])
  }

  /** With an empty name→id map, which is what `allFamilias || []` gives
      when the read of the families fails, no product is updated. */
  lemma {:induction false} EmptyMapAssignsNothing(ps: seq<Producto>)
    ensures Assignments(ps, map[]) == []
  {
    if ps != [] {
      EmptyMapAssignsNothing(ps[..|ps| - 1]);
    }
  }

  /** Every update targets a product of the list with the id its name maps
      to, and every product whose name maps to an id gets that update. */
  lemma {:induction false} AssignmentsIff(ps: seq<Producto>, m: map<string, string>)
    ensures forall u :: u in Assignments(ps, m) ==>
      exists i :: 0 <= i < |ps| && ps[i].id == u.0 && Norm(ps[i].familia) in m && m[Norm(ps[i].familia)] == u.1
    ensures forall i :: 0 <= i < |ps| && Norm(ps[i].familia) in m && m[Norm(ps[i].familia)] != "" ==>
      (ps[i].id, m[Norm(ps[i].familia)]) in Assignments(ps, m)
  {
    if ps != [] {
      var init := ps[..|ps| - 1];
      AssignmentsIff(init, m);
      forall u | u in Assignments(ps, m)
        ensures exists i :: 0 <= i < |ps| && ps[i].id == u.0 && Norm(ps[i].familia) in m && m[Norm(ps[i].familia)] == u.1
      {
        if u in Assignments(init, m) {
          var i :| 0 <= i < |init| && init[i].id == u.0 && Norm(init[i].familia) in m && m[Norm(init[i].familia)] == u.1;
          assert ps[i] == init[i];
        } else {
          assert ps[|ps| - 1].id == u.0;
        }
      }
      forall i | 0 <= i < |ps| && Norm(ps[i].familia) in m && m[Norm(ps[i].familia)] != ""
        ensures (ps[i].id, m[Norm(ps[i].familia)]) in Assignments(ps, m)
      {
        if i < |ps| - 1 {
          assert ps[i] == init[i];
        }
      }
    }
  }

  /** `update({ familia_id: fid }).eq('id', pid)`. */
  function SetFamiliaId(t: seq<Producto>, pid: string, fid: string): (r: seq<Producto>)
    ensures |r| == |t|
    ensures forall j :: 0 <= j < |t| ==> r[j] == if t[j].id == pid then t[j].(familiaId := Some(fid)) else t[j]
  {
    seq(|t|, j requires 0 <= j < |t| => if t[j].id == pid then t[j].(familiaId := Some(fid)) else t[j])
  }

  /** The table after a list of updates, applied in order. */
  function ApplyAll(t: seq<Producto>, updates: seq<(string, string)>): (r: seq<Producto>)
    ensures |r| == |t|
  {
    if updates == [] then t
    else
      var last := updates[|updates| - 1];
      SetFamiliaId(ApplyAll(t, updates[..|updates| - 1]), last.0, last.1)
  }

  /** A product no update targets keeps its row. */
  lemma {:induction false} ApplyAllUntouched(t: seq<Producto>, updates: seq<(string, string)>, j: int)
    requires 0 <= j < |t|
    requires forall k :: 0 <= k < |updates| ==> updates[k].0 != t[j].id
    ensures ApplyAll(t, updates)[j] == t[j]
  {
    if updates != [] {
      ApplyAllUntouched(t, updates[..|updates| - 1], j);
    }
  }

  /** A product is updated only when its normalised name has an id: one
      whose id no listed product with a mapped name shares is untouched. */
  lemma UnmappedUntouched(t: seq<Producto>, ps: seq<Producto>, m: map<string, string>, j: int)
    requires 0 <= j < |t|
    requires forall i :: 0 <= i < |ps| && ps[i].id == t[j].id ==> Norm(ps[i].familia) !in m
    ensures ApplyAll(t, Assignments(ps, m))[j] == t[j]
  {
    AssignmentsIff(ps, m);
    var us := Assignments(ps, m);
    forall k | 0 <= k < |us| ensures us[k].0 != t[j].id {
      assert us[k] in us;
    }
    ApplyAllUntouched(t, us, j);
  }

  /** The fallback's `update({ familia_id }).is('familia_id', null)`. */
  function AssignWhereNull(t: seq<Producto>, fid: string): (r: seq<Producto>)
    ensures |r| == |t|
    ensures forall j :: 0 <= j < |t| && t[j].familiaId.None? ==> r[j] == t[j].(familiaId := Some(fid))
    ensures forall j :: 0 <= j < |t| && t[j].familiaId.Some? ==> r[j] == t[j]
  {
    seq(|t|, j requires 0 <= j < |t| => if t[j].familiaId.None? then t[j].(familiaId := Some(fid)) else t[j])
  }

  function Take(ps: seq<Producto>, n: int): (r: seq<Producto>)
    requires n >= 0
    ensures |r| <= n && |r| <= |ps| && r == ps[..|r|]
    ensures |ps| <= n ==> r == ps
  {
    if |ps| <= n then ps else ps[..n]
  }

  // ---------------------------------------------------------------------
  // The script
  // ---------------------------------------------------------------------

  /** One more product read: its name is added if it is new and not blank. */
  lemma CollectStep(ps: seq<Producto>, i: int)
    requires 0 <= i < |ps|
    ensures var f := Norm(ps[i].familia);
      FamilyNames(ps[..i + 1]) ==
        if f != "" && f !in FamilyNames(ps[..i]) then FamilyNames(ps[..i]) + [f] else FamilyNames(ps[..i])
  {
    assert ps[..i + 1] == ps[..i] + [ps[i]];
    FamilyNamesSnoc(ps[..i], ps[i]);
  }

  /** One more product visited: at most one more update, at the end. */
  lemma AssignmentsStep(ps: seq<Producto>, i: int, m: map<string, string>)
    requires 0 <= i < |ps|
    ensures var n := Norm(ps[i].familia);
      Assignments(ps[..i + 1], m) ==
        Assignments(ps[..i], m) + (if n in m && m[n] != "" then [(ps[i].id, m[n])] else [])
  {
    assert ps[..i + 1][..i] == ps[..i];
  }

  /** One step of the update loop: the updates issued so far grow by the
      product's update, if any, and the table by applying it. */
  lemma AssignStep(t0: seq<Producto>, ps: seq<Producto>, i: int, m: map<string, string>,
                   updates: seq<(string, string)>, t: seq<Producto>)
    requires 0 <= i < |ps| && updates == Assignments(ps[..i], m) && t == ApplyAll(t0, updates)
    ensures var n := Norm(ps[i].familia);
      if n in m && m[n] != "" then
        updates + [(ps[i].id, m[n])] == Assignments(ps[..i + 1], m) &&
        ApplyAll(t0, updates + [(ps[i].id, m[n])]) == SetFamiliaId(t, ps[i].id, m[n])
      else
        updates == Assignments(ps[..i + 1], m)
  {
    AssignmentsStep(ps, i, m);
    var n := Norm(ps[i].familia);
    if n in m && m[n] != "" {
      var u := (ps[i].id, m[n]);
      assert (updates + [u])[..|updates|] == updates;
    } else {
      assert updates + [] == updates;
    }
  }

  class Database {
    var productos: seq<Producto>
    var familias: seq<Familia>

    constructor (productos: seq<Producto>, familias: seq<Familia>)
      ensures this.productos == productos && this.familias == familias
    {
      this.productos := productos;
      this.familias := familias;
    }

    /** The `forEach` that fills `familiasSet`. A `Set` is iterated in
        insertion order, so it is kept here as the list `names` without
        repeats, which `Array.from` returns. */
    static method CollectNames(ps: seq<Producto>) returns (names: seq<string>)
      ensures names == FamilyNames(ps)
    {
      names := [];
      var i := 0;
      while i < |ps|
        invariant 0 <= i <= |ps|
        invariant names == FamilyNames(ps[..i])
      {
        var f := Norm(ps[i].familia);
        CollectStep(ps, i);
        if f != "" && f !in names {
          names := names + [f];
        }
        i := i + 1;
      }
      assert ps[..|ps|] == ps;
    }

    /** The insert loop: a unique violation is logged and the loop goes on. */
    method InsertFamilias(names: seq<string>)
      modifies this
      ensures familias == AfterInsert(old(familias), names)
      ensures productos == old(productos)
    {
      var i := 0;
      while i < |names|
        invariant 0 <= i <= |names|
        invariant AfterInsert(familias, names[i..]) == AfterInsert(old(familias), names)
        invariant productos == old(productos)
      {
        assert names[i..][1..] == names[i + 1..];
        var nombre := names[i];
        if !HasName(familias, nombre) {
          familias := familias + [Familia(IntToString(|familias| + 1), nombre)];
        }
        i := i + 1;
      }
    }

    /** `forEach((f) => { map[f.nombre] = f.id })`. */
    static method BuildMap(fams: seq<Familia>) returns (m: map<string, string>)
      ensures m == ToMap(Pairs(fams))
    {
      m := map[];
      var i := 0;
      while i < |fams|
        invariant 0 <= i <= |fams|
        invariant m == ToMap(Pairs(fams[..i]))
      {
        assert Pairs(fams[..i + 1])[..i] == Pairs(fams[..i]);
        m := m[fams[i].nombre := fams[i].id];
        i := i + 1;
      }
      assert fams[..|fams|] == fams;
    }

    /** The update loop over the products read. */
    method AssignFamilias(ps: seq<Producto>, m: map<string, string>) returns (updates: seq<(string, string)>)
      modifies this
      ensures updates == Assignments(ps, m)
      ensures productos == ApplyAll(old(productos), updates)
      ensures familias == old(familias)
    {
      updates := [];
      var i := 0;
      while i < |ps|
        invariant 0 <= i <= |ps|
        invariant updates == Assignments(ps[..i], m)
        invariant productos == ApplyAll(old(productos), updates)
        invariant familias == old(familias)
      {
        var nombre := Norm(ps[i].familia);
        AssignStep(old(productos), ps, i, m, updates, productos);
        if nombre in m && m[nombre] != "" {
          productos := SetFamiliaId(productos, ps[i].id, m[nombre]);
          updates := updates + [(ps[i].id, m[nombre])];
        }
        assert updates == Assignments(ps[..i + 1], m);
        i := i + 1;
      }
      assert ps[..|ps|] == ps;
    }

    /** The fallback when the legacy column is missing. */
    method AssignGeneral()
      modifies this
      ensures familias == InsertOne(old(familias), DEFAULT_FAMILIA)
      ensures FindByName(familias, DEFAULT_FAMILIA).Some?
      ensures productos == AssignWhereNull(old(productos), FindByName(familias, DEFAULT_FAMILIA).value.id)
    {
      if !HasName(familias, DEFAULT_FAMILIA) {
        familias := familias + [Familia(IntToString(|familias| + 1), DEFAULT_FAMILIA)];
      }
      GeneralAlwaysFound(old(familias));
      var gen := FindByName(familias, DEFAULT_FAMILIA);
      if gen.Some? {
        productos := AssignWhereNull(productos, gen.value.id);
      }
    }

    /** The whole script; `selectError` is the error of the first products
        query, if any. The exit code is 1 when the script gives up. */
    method Run(selectError: Option<string>) returns (exitCode: int)
      modifies this
      ensures selectError.None? ==>
        var ps := Take(old(productos), READ_LIMIT);
        exitCode == 0 &&
        familias == AfterInsert(old(familias), FamilyNames(ps)) &&
        productos == ApplyAll(old(productos), Assignments(ps, ToMap(Pairs(familias))))
      ensures selectError.Some? && Includes(ToLower(selectError.value), "column") &&
              Includes(ToLower(selectError.value), "familia") ==>
        exitCode == 0 &&
        familias == InsertOne(old(familias), DEFAULT_FAMILIA) &&
        FindByName(familias, DEFAULT_FAMILIA).Some? &&
        productos == AssignWhereNull(old(productos), FindByName(familias, DEFAULT_FAMILIA).value.id)
      ensures selectError.Some? && !(Includes(ToLower(selectError.value), "column") &&
              Includes(ToLower(selectError.value), "familia")) ==>
        exitCode == 1 && familias == old(familias) && productos == old(productos)
    {
      if selectError.None? {
        var ps := Take(productos, READ_LIMIT);
        var names := CollectNames(ps);
        InsertFamilias(names);
        var m := BuildMap(familias);
        var updates := AssignFamilias(ps, m);
        return 0;
      }
      var msg := ToLower(selectError.value);
      if Includes(msg, "column") && Includes(msg, "familia") {
        AssignGeneral();
        return 0;
      }
      return 1;
    }
  }
}
