/** The product search endpoint (src/app/api/search/route.ts): clamping of
    `page` and `limit`, the recent-products shortcut for a blank query, the
    first-seen-wins merge of the four per-field sub-results, slice
    pagination, and the in-place fill-in of missing family names. */
module SearchRoute {
  import opened Common
  import opened Text

  /** A product row as the REST endpoint returns it; `familiaId` is "" when
      the column is null, `familias` is the embedded family name, if any. */
  datatype Producto = Producto(id: string, nombre: string, createdAt: int,
                               familiaId: string, familias: Option<string>)

  /** The reply of one REST `fetch`: rows, a non-ok status, or a thrown
      exception (network failure). */
  datatype Reply = Rows(rows: seq<Producto>) | NotOk(status: int) | Threw

  /** The family lookup's reply: `(id, nombre)` pairs. */
  datatype FamReply = FamRows(fams: seq<(string, string)>) | FamNotOk | FamThrew

  datatype SearchResponse = Json(items: seq<Producto>, total: int) | Failure(status: int)

  // ---------------------------------------------------------------------
  // Parameters
  // ---------------------------------------------------------------------

  /** `Math.max(1, parseInt(page || '1'))`; `None` is NaN, which
      `Math.max` propagates. */
  function ClampPage(p: NumParam): (r: Option<int>)
    ensures r.None? <==> p.NotANumber?
    ensures r.Some? ==> r.value >= 1
    ensures p.Missing? ==> r == Some(1)
    ensures p.Number? && p.value >= 1 ==> r == Some(p.value)
    ensures p.Number? && p.value < 1 ==> r == Some(1)
  {
    match p
    case Missing => Some(1)
    case NotANumber => None
    case Number(n) => Some(if n < 1 then 1 else n)
  }

  /** `Math.max(1, Math.min(100, parseInt(limit || '12')))`. */
  function ClampLimit(p: NumParam): (r: Option<int>)
    ensures r.None? <==> p.NotANumber?
    ensures r.Some? ==> 1 <= r.value <= 100
    ensures p.Missing? ==> r == Some(12)
    ensures p.Number? && 1 <= p.value <= 100 ==> r == Some(p.value)
    ensures p.Number? && p.value > 100 ==> r == Some(100)
    ensures p.Number? && p.value < 1 ==> r == Some(1)
  {
    match p
    case Missing => Some(12)
    case NotANumber => None
    case Number(n) => Some(if n < 1 then 1 else if n > 100 then 100 else n)
  }

  // ---------------------------------------------------------------------
  // The merge
  // ---------------------------------------------------------------------

  function IdsOf(s: seq<Producto>): set<string>
  {
    set i | 0 <= i < |s| :: s[i].id
  }

  lemma IdsOfCons(s: seq<Producto>)
    requires s != []
    ensures IdsOf(s) == {s[0].id} + IdsOf(s[1..])
  {
    forall x | x in IdsOf(s) ensures x in {s[0].id} + IdsOf(s[1..]) {
      var i :| 0 <= i < |s| && s[i].id == x;
      if i > 0 {
        assert s[1..][i - 1].id == x;
      }
    }
    forall x | x in IdsOf(s[1..]) ensures x in IdsOf(s) {
      var i :| 0 <= i < |s[1..]| && s[1..][i].id == x;
      assert s[i + 1].id == x;
    }
  }

  lemma IdsOfConcat(a: seq<Producto>, b: seq<Producto>)
    ensures IdsOf(a + b) == IdsOf(a) + IdsOf(b)
  {
    forall x | x in IdsOf(a) + IdsOf(b) ensures x in IdsOf(a + b) {
      if x in IdsOf(a) {
        var i :| 0 <= i < |a| && a[i].id == x;
        assert (a + b)[i].id == x;
      } else {
        var i :| 0 <= i < |b| && b[i].id == x;
        assert (a + b)[|a| + i].id == x;
      }
    }
    forall x | x in IdsOf(a + b) ensures x in IdsOf(a) + IdsOf(b) {
      var i :| 0 <= i < |a + b| && (a + b)[i].id == x;
      if i < |a| {
        assert a[i].id == x;
      } else {
        assert b[i - |a|].id == x;
      }
    }
  }

  predicate UniqueIds(s: seq<Producto>)
  {
    forall i, j :: 0 <= i < j < |s| ==> s[i].id != s[j].id
  }

  /** The values a `Map` keyed by id ends up holding, in insertion order, when
      each row of `s` is set only if its id is neither in `seen` nor already set. */
  function DedupFrom(s: seq<Producto>, seen: set<string>): (r: seq<Producto>)
    ensures |r| <= |s|
  {
    if s == [] then []
    else if s[0].id in seen then DedupFrom(s[1..], seen)
    else [s[0]] + DedupFrom(s[1..], seen + {s[0].id})
  }

  /** The merged list: the four sub-results, in priority order, deduplicated. */
  function Merged(byNombre: seq<Producto>, byFamilia: seq<Producto>,
                  byDesc: seq<Producto>, byCategoria: seq<Producto>): (r: seq<Producto>)
    ensures |r| <= |byNombre| + |byFamilia| + |byDesc| + |byCategoria|
    ensures byNombre != [] ==> r != [] && r[0] == byNombre[0]
  {
    DedupFrom(byNombre + byFamilia + byDesc + byCategoria, {})
  }

  /** The position of the first row with that id. */
  function FirstIndex(s: seq<Producto>, id: string): (i: int)
    requires id in IdsOf(s)
    ensures 0 <= i < |s| && s[i].id == id
    ensures forall j :: 0 <= j < i ==> s[j].id != id
  {
    if s[0].id == id then 0
    else
      assert id in IdsOf(s[1..]);
      1 + FirstIndex(s[1..], id)
  }

  /** Merging continues where the previous list stopped. */
  lemma {:induction false} DedupFromConcat(a: seq<Producto>, b: seq<Producto>, seen: set<string>)
    ensures DedupFrom(a + b, seen) == DedupFrom(a, seen) + DedupFrom(b, seen + IdsOf(a))
  {
    if a == [] {
      assert a + b == b;
      assert IdsOf(a) == {};
      assert DedupFrom(a, seen) == [];
      assert seen + IdsOf(a) == seen;
    } else {
      assert (a + b)[1..] == a[1..] + b;
      assert (a + b)[0] == a[0];
      IdsOfCons(a);
      if a[0].id in seen {
        DedupFromConcat(a[1..], b, seen);
        assert seen + IdsOf(a[1..]) == seen + IdsOf(a);
      } else {
        DedupFromConcat(a[1..], b, seen + {a[0].id});
        assert seen + {a[0].id} + IdsOf(a[1..]) == seen + IdsOf(a);
      }
    }
  }

  /** The merged ids are those of the input that were not seen before. */
  lemma {:induction false} DedupFromIds(s: seq<Producto>, seen: set<string>)
    ensures IdsOf(DedupFrom(s, seen)) == IdsOf(s) - seen
  {
    if s == [] {
      assert IdsOf(s) == {};
      assert IdsOf(DedupFrom(s, seen)) == {};
    } else {
      IdsOfCons(s);
      if s[0].id in seen {
        DedupFromIds(s[1..], seen);
      } else {
        DedupFromIds(s[1..], seen + {s[0].id});
        IdsOfConcat([s[0]], DedupFrom(s[1..], seen + {s[0].id}));
        assert IdsOf([s[0]]) == {s[0].id};
      }
    }
  }

  lemma {:induction false} DedupFromUnique(s: seq<Producto>, seen: set<string>)
    ensures UniqueIds(DedupFrom(s, seen))
  {
    if s != [] {
      if s[0].id in seen {
        DedupFromUnique(s[1..], seen);
      } else {
        var rest := DedupFrom(s[1..], seen + {s[0].id});
        DedupFromUnique(s[1..], seen + {s[0].id});
        DedupFromIds(s[1..], seen + {s[0].id});
        var r := [s[0]] + rest;
        forall i, j | 0 <= i < j < |r| ensures r[i].id != r[j].id {
          if i == 0 {
            assert r[j] == rest[j - 1];
            assert r[j].id in IdsOf(rest);
          } else {
            assert r[i] == rest[i - 1] && r[j] == rest[j - 1];
          }
        }
      }
    }
  }

  /** Every merged row is the first row of the input carrying its id. */
  lemma {:induction false} DedupFromFirstSeen(s: seq<Producto>, seen: set<string>, k: int)
    requires 0 <= k < |DedupFrom(s, seen)|
    ensures DedupFrom(s, seen)[k].id in IdsOf(s)
    ensures DedupFrom(s, seen)[k] == s[FirstIndex(s, DedupFrom(s, seen)[k].id)]
  {
    var r := DedupFrom(s, seen);
    DedupFromIds(s, seen);
    assert r[k].id in IdsOf(r);
    if s[0].id in seen {
      DedupFromFirstSeen(s[1..], seen, k);
    } else if k > 0 {
      var rest := DedupFrom(s[1..], seen + {s[0].id});
      assert r[k] == rest[k - 1];
      DedupFromIds(s[1..], seen + {s[0].id});
      assert rest[k - 1].id in IdsOf(rest);
      DedupFromFirstSeen(s[1..], seen + {s[0].id}, k - 1);
    }
  }

  /** Past a head row with another id, the first occurrence is one further on. */
  lemma FirstIndexTail(s: seq<Producto>, id: string)
    requires s != [] && s[0].id != id && id in IdsOf(s[1..])
    ensures id in IdsOf(s) && FirstIndex(s, id) == 1 + FirstIndex(s[1..], id)
  {
    IdsOfCons(s);
  }

  /** A merged row carries an id of the input that was not seen before. */
  lemma {:induction false} DedupFromMember(s: seq<Producto>, seen: set<string>, k: int)
    requires 0 <= k < |DedupFrom(s, seen)|
    ensures DedupFrom(s, seen)[k].id !in seen && DedupFrom(s, seen)[k].id in IdsOf(s)
  {
    IdsOfCons(s);
    if s[0].id in seen {
      DedupFromMember(s[1..], seen, k);
    } else if k > 0 {
      DedupFromMember(s[1..], seen + {s[0].id}, k - 1);
    }
  }

  /** Merged rows keep the order of their first occurrences. */
  lemma {:induction false} DedupFromOrder(s: seq<Producto>, seen: set<string>, k1: int, k2: int)
    requires 0 <= k1 < k2 < |DedupFrom(s, seen)|
    ensures DedupFrom(s, seen)[k1].id in IdsOf(s) && DedupFrom(s, seen)[k2].id in IdsOf(s)
    ensures FirstIndex(s, DedupFrom(s, seen)[k1].id) < FirstIndex(s, DedupFrom(s, seen)[k2].id)
  {
    var r := DedupFrom(s, seen);
    var x1, x2 := r[k1].id, r[k2].id;
    if s[0].id in seen {
      assert x1 in IdsOf(s) && x2 in IdsOf(s) && FirstIndex(s, x1) < FirstIndex(s, x2) by {
        DedupFromMember(s, seen, k1);
        DedupFromMember(s, seen, k2);
        DedupFromOrder(s[1..], seen, k1, k2);
        FirstIndexTail(s, x1);
        FirstIndexTail(s, x2);
      }
    } else {
      var seen' := seen + {s[0].id};
      var rest := DedupFrom(s[1..], seen');
      assert r == [s[0]] + rest;
      assert x2 == rest[k2 - 1].id;
      assert x2 in IdsOf(s) && FirstIndex(s, x2) == 1 + FirstIndex(s[1..], x2) by {
        DedupFromMember(s[1..], seen', k2 - 1);
        FirstIndexTail(s, x2);
      }
      if k1 > 0 {
        assert x1 == rest[k1 - 1].id;
        assert x1 in IdsOf(s) && FirstIndex(s, x1) < FirstIndex(s, x2) by {
          DedupFromMember(s[1..], seen', k1 - 1);
          DedupFromOrder(s[1..], seen', k1 - 1, k2 - 1);
          FirstIndexTail(s, x1);
        }
      } else {
        assert x1 == s[0].id;
        DedupFromMember(s, seen, k1);
      }
    }
  }

  /** No two merged rows share an id. */
  lemma MergedUnique(a: seq<Producto>, b: seq<Producto>, c: seq<Producto>, d: seq<Producto>)
    ensures UniqueIds(Merged(a, b, c, d))
  {
    DedupFromUnique(a + b + c + d, {});
  }

  /** The merged ids are exactly the union of the sub-results' ids. */
  lemma MergedIds(a: seq<Producto>, b: seq<Producto>, c: seq<Producto>, d: seq<Producto>)
    ensures IdsOf(Merged(a, b, c, d)) == IdsOf(a) + IdsOf(b) + IdsOf(c) + IdsOf(d)
  {
    DedupFromIds(a + b + c + d, {});
    IdsOfConcat(a, b);
    IdsOfConcat(a + b, c);
    IdsOfConcat(a + b + c, d);
  }

  /** Each merged row is the first one with its id in the priority order
      nombre, familia, descripcion, categoria, and merged rows appear in the
      order of those first occurrences. */
  lemma MergedFirstSeen(a: seq<Producto>, b: seq<Producto>, c: seq<Producto>, d: seq<Producto>, k1: int, k2: int)
    requires 0 <= k1 < k2 < |Merged(a, b, c, d)|
    ensures Merged(a, b, c, d)[k1].id in IdsOf(a + b + c + d)
    ensures Merged(a, b, c, d)[k2].id in IdsOf(a + b + c + d)
    ensures Merged(a, b, c, d)[k1] == (a + b + c + d)[FirstIndex(a + b + c + d, Merged(a, b, c, d)[k1].id)]
    ensures FirstIndex(a + b + c + d, Merged(a, b, c, d)[k1].id) < FirstIndex(a + b + c + d, Merged(a, b, c, d)[k2].id)
  {
    DedupFromFirstSeen(a + b + c + d, {}, k1);
    DedupFromOrder(a + b + c + d, {}, k1, k2);
  }

  /** `push(arr)`: `arr.forEach(it => { if (!map.has(it.id)) map.set(it.id, it) })`
      on a `Map` whose values in insertion order are `merged` and whose keys
      are `seen`. */
  method Push(merged: seq<Producto>, seen: set<string>, arr: seq<Producto>)
    returns (merged': seq<Producto>, seen': set<string>)
    ensures merged' == merged + DedupFrom(arr, seen)
    ensures seen' == seen + IdsOf(arr)
  {
    merged', seen' := merged, seen;
    var i := 0;
    while i < |arr|
      invariant 0 <= i <= |arr|
      invariant seen' == seen + IdsOf(arr[..i])
      invariant merged' + DedupFrom(arr[i..], seen') == merged + DedupFrom(arr, seen)
    {
      assert arr[i..][1..] == arr[i + 1..];
      assert arr[..i + 1] == arr[..i] + [arr[i]];
      IdsOfConcat(arr[..i], [arr[i]]);
      if arr[i].id !in seen' {
        merged' := merged' + [arr[i]];
        seen' := seen' + {arr[i].id};
      }
      i := i + 1;
    }
    assert arr[..i] == arr;
  }

  /** The four `push` calls on an empty `Map`, then `Array.from(map.values())`. */
  method Merge(byNombre: seq<Producto>, byFamilia: seq<Producto>,
               byDesc: seq<Producto>, byCategoria: seq<Producto>) returns (merged: seq<Producto>)
    ensures merged == Merged(byNombre, byFamilia, byDesc, byCategoria)
  {
    var a, b, c, d := byNombre, byFamilia, byDesc, byCategoria;
    var seen: set<string>;
    merged, seen := Push([], {}, a);
    assert merged == DedupFrom(a, {}) && seen == IdsOf(a);
    merged, seen := Push(merged, seen, b);
    assert merged == DedupFrom(a + b, {}) && seen == IdsOf(a + b) by {
      DedupFromConcat(a, b, {});
      IdsOfConcat(a, b);
      assert {} + IdsOf(a) == IdsOf(a);
    }
    merged, seen := Push(merged, seen, c);
    assert merged == DedupFrom(a + b + c, {}) && seen == IdsOf(a + b + c) by {
      DedupFromConcat(a + b, c, {});
      IdsOfConcat(a + b, c);
      assert {} + IdsOf(a + b) == IdsOf(a + b);
    }
    merged, seen := Push(merged, seen, d);
    assert merged == DedupFrom(a + b + c + d, {}) by {
      DedupFromConcat(a + b + c, d, {});
      assert {} + IdsOf(a + b + c) == IdsOf(a + b + c);
    }
  }

  // ---------------------------------------------------------------------
  // Pagination
  // ---------------------------------------------------------------------

  /** `Array.prototype.slice(start, end)` index normalisation. */
  function SliceIndex(len: nat, x: int): (r: nat)
    ensures r <= len
  {
    if x < 0 then (if len + x < 0 then 0 else len + x) else if x > len then len else x
  }

  /** `s.slice(start, end)`. */
  function Slice<T>(s: seq<T>, start: int, end: int): (r: seq<T>)
    ensures 0 <= start <= end ==> |r| <= end - start
    ensures 0 <= start <= |s| && start <= end ==>
      r == s[start..if end <= |s| then end else |s|]
    ensures 0 <= |s| <= start ==> r == []
  {
    var a := SliceIndex(|s|, start);
    var b := SliceIndex(|s|, end);
    if a < b then s[a..b] else []
  }

  /** The first row of a page: `(page - 1) * limit`. */
  function PageStart(page: int, limit: int): (start: int)
    requires page >= 1 && limit >= 1
    ensures start >= 0 && start == PageRange(page, limit).from
  {
    MulMonotone(0, page - 1, limit);
    (page - 1) * limit
  }

  /** `merged.slice((page - 1) * limit, (page - 1) * limit + limit)`; with a
      NaN page or limit both bounds are NaN, which `slice` reads as 0. */
  function Paginate(merged: seq<Producto>, page: Option<int>, limit: Option<int>): (r: seq<Producto>)
    requires page.Some? ==> page.value >= 1
    requires limit.Some? ==> limit.value >= 1
    ensures page.None? || limit.None? ==> r == []
    ensures page.Some? && limit.Some? ==> |r| <= limit.value
    ensures page.Some? && limit.Some? ==>
      var start := PageStart(page.value, limit.value);
      |r| == if start + limit.value <= |merged| then limit.value
             else if start < |merged| then |merged| - start
             else 0
    ensures page.Some? && limit.Some? ==>
      forall k :: 0 <= k < |r| ==>
        PageStart(page.value, limit.value) + k < |merged| &&
        r[k] == merged[PageStart(page.value, limit.value) + k]
  {
    if page.None? || limit.None? then []
    else
      var start := PageStart(page.value, limit.value);
      Slice(merged, start, start + limit.value)
  }

  /** A page that starts inside the merged list is not empty and begins with
      row `(page - 1) * limit`. */
  lemma PageStartIsInRange(merged: seq<Producto>, page: int, limit: int)
    requires page >= 1 && limit >= 1 && (page - 1) * limit < |merged|
    ensures |Paginate(merged, Some(page), Some(limit))| > 0
    ensures Paginate(merged, Some(page), Some(limit))[0] == merged[(page - 1) * limit]
  {
  }

  // ---------------------------------------------------------------------
  // Family fill-in
  // ---------------------------------------------------------------------

  /** `(!it.familias || it.familias === null) && it.familia_id`. */
  predicate NeedsFamilia(it: Producto)
  {
    it.familias.None? && it.familiaId != ""
  }

  function NeededIds(items: seq<Producto>): seq<string>
  {
    if items == [] then []
    else (if NeedsFamilia(items[0]) then [items[0].familiaId] else []) + NeededIds(items[1..])
  }

  /** `Array.from(new Set(items.filter(NeedsFamilia).map(it => it.familia_id)))`. */
  function MissingIds(items: seq<Producto>): (ids: seq<string>)
    ensures forall x :: x in ids <==> exists i :: 0 <= i < |items| && NeedsFamilia(items[i]) && items[i].familiaId == x
    ensures forall i, j :: 0 <= i < j < |ids| ==> ids[i] != ids[j]
  {
    NeededIdsMembers(items);
    Distinct(NeededIds(items))
  }

  lemma {:induction false} NeededIdsMembers(items: seq<Producto>)
    ensures forall x :: x in NeededIds(items) <==>
      exists i :: 0 <= i < |items| && NeedsFamilia(items[i]) && items[i].familiaId == x
  {
    if items != [] {
      NeededIdsMembers(items[1..]);
      forall x | (exists i :: 0 <= i < |items| && NeedsFamilia(items[i]) && items[i].familiaId == x)
        ensures x in NeededIds(items)
      {
        var i :| 0 <= i < |items| && NeedsFamilia(items[i]) && items[i].familiaId == x;
        if i > 0 {
          assert items[1..][i - 1] == items[i];
        }
      }
      forall x | x in NeededIds(items[1..])
        ensures exists i :: 0 <= i < |items| && NeedsFamilia(items[i]) && items[i].familiaId == x
      {
        var i :| 0 <= i < |items[1..]| && NeedsFamilia(items[1..][i]) && items[1..][i].familiaId == x;
        assert items[i + 1] == items[1..][i];
      }
    }
  }

  /** The item after the `forEach` of the fill-in, given the lookup map. */
  function Filled(it: Producto, famMap: map<string, string>): (r: Producto)
    ensures r.(familias := it.familias) == it
    ensures r != it ==> NeedsFamilia(it) && it.familiaId in famMap
    ensures NeedsFamilia(it) && it.familiaId in famMap ==> r.familias == Some(famMap[it.familiaId])
  {
    if NeedsFamilia(it) && it.familiaId in famMap then it.(familias := Some(famMap[it.familiaId])) else it
  }

  /** `items.forEach(it => { if (…) it.familias = { nombre: famMap.get(it.familia_id) } })`. */
  method FillFamilias(items: array<Producto>, famMap: map<string, string>)
    modifies items
    ensures forall i :: 0 <= i < items.Length ==> items[i] == Filled(old(items[i]), famMap)
  {
    var i := 0;
    while i < items.Length
      invariant 0 <= i <= items.Length
      invariant forall j :: 0 <= j < i ==> items[j] == Filled(old(items[j]), famMap)
      invariant forall j :: i <= j < items.Length ==> items[j] == old(items[j])
    {
      items[i] := Filled(items[i], famMap);
      i := i + 1;
    }
  }

  /** The lookup map the fill-in uses: only when some item needs a name and
      the lookup came back ok; a throw is caught and ignored. */
  function FamMapOf(items: seq<Producto>, fam: FamReply): (m: map<string, string>)
    ensures MissingIds(items) == [] || !fam.FamRows? ==> m == map[]
  {
    if MissingIds(items) != [] && fam.FamRows? then ToMap(fam.fams) else map[]
  }

  /** `fetchFilter`: a non-ok reply contributes no rows. */
  function RowsOr(r: Reply): (rows: seq<Producto>)
    ensures r.NotOk? ==> rows == []
  {
    if r.Rows? then r.rows else []
  }

  // ---------------------------------------------------------------------
  // The handler
  // ---------------------------------------------------------------------

  /** The JSON `GET /api/search` returns for a blank query: the backend's
      reply is passed through (it asks for `limit` rows by `created_at`
      descending), with `total` its length. */
  function RecentResponse(recent: Reply): (resp: SearchResponse)
    ensures recent.Rows? ==> resp == Json(recent.rows, |recent.rows|)
    ensures recent.NotOk? ==> resp == Failure(recent.status)
    ensures recent.Threw? ==> resp == Failure(500)
  {
    match recent
    case Rows(rows) => Json(rows, |rows|)
    case NotOk(status) => Failure(status)
    case Threw => Failure(500)
  }

  predicate AnyThrew(byNombre: Reply, byFamilia: Reply, byDesc: Reply, byCategoria: Reply)
  {
    byNombre.Threw? || byFamilia.Threw? || byDesc.Threw? || byCategoria.Threw?
  }

  /** The merged list of the four sub-replies. */
  function MergedReplies(byNombre: Reply, byFamilia: Reply, byDesc: Reply, byCategoria: Reply): seq<Producto>
  {
    Merged(RowsOr(byNombre), RowsOr(byFamilia), RowsOr(byDesc), RowsOr(byCategoria))
  }

  /** The page after the fill-in, on a copy held in an array as the source
      mutates its `items` array. */
  method FillPage(slice: seq<Producto>, famMap: map<string, string>) returns (items: seq<Producto>)
    ensures |items| == |slice|
    ensures forall k :: 0 <= k < |slice| ==> items[k] == Filled(slice[k], famMap)
  {
    var a := new Producto[|slice|](i requires 0 <= i < |slice| => slice[i]);
    FillFamilias(a, famMap);
    items := a[..];
  }

  /** `GET /api/search`: the remote replies are inputs. */
  method Get(configured: bool, q: string, pageParam: NumParam, limitParam: NumParam,
             recent: Reply, byNombre: Reply, byFamilia: Reply, byDesc: Reply, byCategoria: Reply,
             fam: FamReply) returns (resp: SearchResponse)
    ensures !configured ==> resp == Failure(500)
    // blank query: no merge
    ensures configured && Trim(q) == "" ==> resp == RecentResponse(recent)
    // a sub-query that throws is not caught
    ensures configured && Trim(q) != "" && AnyThrew(byNombre, byFamilia, byDesc, byCategoria) ==>
      resp == Failure(500)
    // otherwise: the merged total and the requested page of it, names filled in
    ensures configured && Trim(q) != "" && !AnyThrew(byNombre, byFamilia, byDesc, byCategoria) ==>
      var merged := MergedReplies(byNombre, byFamilia, byDesc, byCategoria);
      var page := Paginate(merged, ClampPage(pageParam), ClampLimit(limitParam));
      resp.Json? && resp.total == |merged| && |resp.items| == |page| &&
      forall k :: 0 <= k < |page| ==> resp.items[k] == Filled(page[k], FamMapOf(page, fam))
  {
    if !configured {
      return Failure(500);
    }
    if Trim(q) == "" {
      return RecentResponse(recent);
    }
    if AnyThrew(byNombre, byFamilia, byDesc, byCategoria) {
      return Failure(500);
    }
    var merged := Merge(RowsOr(byNombre), RowsOr(byFamilia), RowsOr(byDesc), RowsOr(byCategoria));
    var slice := Paginate(merged, ClampPage(pageParam), ClampLimit(limitParam));
    var items := FillPage(slice, FamMapOf(slice, fam));
    resp := Json(items, |merged|);
  }
}
