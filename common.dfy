/** Helpers shared by the storefront's modules: optional values, the outcome
    of `parseInt` on a query parameter, the pagination arithmetic of the API
    routes and list pages, the 30-day return window on an integer millisecond
    timeline, and two list operations (filter, last-wins map building). */
module Common {

  datatype Option<+T> = None | Some(value: T)

  datatype Result<+T, +E> = Ok(value: T) | Err(error: E)

  /** What `parseInt(searchParams.get(name) || default, 10)` sees: the
      parameter was absent or empty, it does not start with a number (NaN),
      or it parses to `value`. */
  datatype NumParam = Missing | NotANumber | Number(value: int)

  /** `s || d` on strings: the empty string is falsy. */
  function OrDefault(s: string, d: string): string
  {
    if s == "" then d else s
  }

  /** `parseInt(p || String(d), 10) || d`: an absent, non-numeric or zero
      parameter falls back to the default. */
  function ParamOr(p: NumParam, d: int): (r: int)
    requires d != 0
    ensures r != 0
    ensures r == d || (p.Number? && r == p.value)
    ensures p.Number? && p.value != 0 ==> r == p.value
  {
    match p
    case Number(v) => if v == 0 then d else v
    case _ => d
  }

  // ---------------------------------------------------------------------
  // Pagination
  // ---------------------------------------------------------------------

  /** An inclusive row range, as `.range(from, to)` takes it. */
  datatype RowRange = RowRange(from: int, to: int)

  /** `[(page - 1) * limit, page * limit - 1]`, the range every list route asks for. */
  function PageRange(page: int, limit: int): (r: RowRange)
    ensures r.from == (page - 1) * limit
    ensures r.to - r.from + 1 == limit
  {
    RowRange((page - 1) * limit, page * limit - 1)
  }

  /** Consecutive pages are adjacent: page p+1 starts right after page p ends. */
  lemma PagesAdjacent(page: int, limit: int)
    ensures PageRange(page + 1, limit).from == PageRange(page, limit).to + 1
  {
  }

  /** With a positive limit, distinct pages ask for disjoint ranges. */
  lemma PagesDisjoint(p: int, q: int, limit: int)
    requires limit > 0 && p < q
    ensures PageRange(p, limit).to < PageRange(q, limit).from
  {
    MulMonotone(p, q - 1, limit);
  }

  /** With a positive limit, row k (counting from 0) lies on page k / limit + 1. */
  lemma RowOnPage(k: int, limit: int)
    requires k >= 0 && limit > 0
    ensures PageRange(k / limit + 1, limit).from <= k <= PageRange(k / limit + 1, limit).to
  {
    var d := k / limit;
    assert d * limit <= k < (d + 1) * limit by {
      DivBounds(k, limit);
    }
  }

  lemma MulMonotone(a: int, b: int, c: int)
    requires a <= b && c >= 0
    ensures a * c <= b * c
  {
    assert b * c - a * c == (b - a) * c;
  }

  lemma DivBounds(k: int, m: int)
    requires m > 0
    ensures (k / m) * m <= k < (k / m + 1) * m
  {
    assert k == (k / m) * m + k % m;
  }

  /** `p * pageSize < count`: there are rows beyond page p. */
  function HasMore(p: int, pageSize: int, count: int): (r: bool)
    ensures 0 <= p && 0 <= pageSize && count <= 0 ==> !r
  {
    p * pageSize < count
  }

  // ---------------------------------------------------------------------
  // The 30-day window on an integer millisecond timeline
  // ---------------------------------------------------------------------

  const MS_PER_DAY: int := 1000 * 60 * 60 * 24

  /** Days a return may be requested after the order was placed. */
  const RETURN_WINDOW_DAYS: int := 30

  /** `Math.floor((now - since) / MS_PER_DAY)`: whole days elapsed. */
  function ElapsedDays(now: int, since: int): (d: int)
    ensures d * MS_PER_DAY <= now - since < (d + 1) * MS_PER_DAY
  {
    DivBounds(now - since, MS_PER_DAY);
    (now - since) / MS_PER_DAY
  }

  /** `date.setDate(date.getDate() + days)` on an integer timeline. */
  function PlusDays(t: int, days: int): (r: int)
    ensures ElapsedDays(r, t) == days
  {
    t + days * MS_PER_DAY
  }

  /** The admission test both the server and the client pages use. */
  predicate WithinReturnWindow(now: int, creadoAt: int): (r: bool)
    ensures now <= creadoAt ==> r
  {
    ElapsedDays(now, creadoAt) <= RETURN_WINDOW_DAYS
  }

  /** The window closes exactly 31 whole days after the order: the bound on
      whole days is inclusive, so anything short of 31 days is accepted. */
  lemma WindowInMilliseconds(now: int, creadoAt: int)
    ensures WithinReturnWindow(now, creadoAt) <==> now - creadoAt < (RETURN_WINDOW_DAYS + 1) * MS_PER_DAY
  {
    var d := ElapsedDays(now, creadoAt);
    if d <= RETURN_WINDOW_DAYS {
      MulMonotone(d + 1, RETURN_WINDOW_DAYS + 1, MS_PER_DAY);
    } else {
      MulMonotone(RETURN_WINDOW_DAYS + 1, d, MS_PER_DAY);
    }
  }

  // ---------------------------------------------------------------------
  // List operations
  // ---------------------------------------------------------------------

  /** `s.filter(keep)`. */
  function Filter<T(!new)>(s: seq<T>, keep: T -> bool): (r: seq<T>)
    ensures |r| <= |s|
    ensures forall x :: x in r <==> x in s && keep(x)
  {
    if s == [] then [] else (if keep(s[0]) then [s[0]] else []) + Filter(s[1..], keep)
  }

  /** Filtering distributes over concatenation, so the kept elements stay in
      their original order. */
  lemma {:induction false} FilterConcat<T(!new)>(a: seq<T>, b: seq<T>, keep: T -> bool)
    ensures Filter(a + b, keep) == Filter(a, keep) + Filter(b, keep)
  {
    if a == [] {
      assert a + b == b;
    } else {
      assert (a + b)[1..] == a[1..] + b;
      FilterConcat(a[1..], b, keep);
    }
  }

  /** A filter that keeps every element is the identity. */
  lemma {:induction false} FilterKeepsAll<T(!new)>(s: seq<T>, keep: T -> bool)
    requires forall i :: 0 <= i < |s| ==> keep(s[i])
    ensures Filter(s, keep) == s
  {
    if s != [] {
      FilterKeepsAll(s[1..], keep);
    }
  }

  /** A filter that keeps no element yields the empty list. */
  lemma {:induction false} FilterDropsAll<T(!new)>(s: seq<T>, keep: T -> bool)
    requires forall i :: 0 <= i < |s| ==> !keep(s[i])
    ensures Filter(s, keep) == []
  {
    if s != [] {
      FilterDropsAll(s[1..], keep);
    }
  }

  /** `Array.from(new Set(s))`: the elements of `s` without repeats. */
  function Distinct<T(==, !new)>(s: seq<T>): (r: seq<T>)
    ensures forall x :: x in r <==> x in s
    ensures forall i, j :: 0 <= i < j < |r| ==> r[i] != r[j]
  {
    if s == [] then []
    else
      var init := Distinct(s[..|s| - 1]);
      var last := s[|s| - 1];
      assert s == s[..|s| - 1] + [last];
      if last in init then init else init + [last]
  }

  /** `.single()` on a filtered table: a row only when exactly one matches. */
  function Single<T>(matches: seq<T>): (r: Option<T>)
    ensures r.Some? <==> |matches| == 1
    ensures r.Some? ==> r.value in matches
  {
    if |matches| == 1 then Some(matches[0]) else None
  }

  /** The keys a list of pairs mentions. */
  function KeysOf<K, V>(pairs: seq<(K, V)>): set<K>
  {
    set i | 0 <= i < |pairs| :: pairs[i].0
  }

  /** Assigning `m[k] = v` for each pair in order (`new Map(pairs)` and the
      `forEach(f => { map[f.nombre] = f.id })` idiom): later pairs overwrite
      earlier ones with the same key. */
  function ToMap<K, V>(pairs: seq<(K, V)>): (m: map<K, V>)
    ensures m.Keys == KeysOf(pairs)
  {
    if pairs == [] then map[]
    else
      var init := pairs[..|pairs| - 1];
      var last := pairs[|pairs| - 1];
      assert KeysOf(pairs) == KeysOf(init) + {last.0} by {
        assert forall i :: 0 <= i < |init| ==> init[i] == pairs[i];
      }
      ToMap(init)[last.0 := last.1]
  }

  /** The value stored for a key is the one of its last pair. */
  lemma {:induction false} ToMapLastWins<K, V>(pairs: seq<(K, V)>, i: int)
    requires 0 <= i < |pairs|
    requires forall j :: i < j < |pairs| ==> pairs[j].0 != pairs[i].0
    ensures pairs[i].0 in ToMap(pairs) && ToMap(pairs)[pairs[i].0] == pairs[i].1
  {
    if i < |pairs| - 1 {
      var init := pairs[..|pairs| - 1];
      ToMapLastWins(init, i);
    }
  }
}
