/** The string operations the list filters and search builders use:
    `toLowerCase`, `includes`, `startsWith`, `trim`, and the escaping of the
    LIKE wildcards `%` and `_`. */
module Text {

  /** ASCII lower-casing of one character. */
  function LowerChar(c: char): char
  {
    if 'A' <= c <= 'Z' then (c as int + 32) as char else c
  }

  /** `s.toLowerCase()`, restricted to ASCII letters. */
  function ToLower(s: string): (r: string)
    ensures |r| == |s|
    ensures forall i :: 0 <= i < |s| ==> r[i] == LowerChar(s[i])
  {
    seq(|s|, i requires 0 <= i < |s| => LowerChar(s[i]))
  }

  /** `hay.startsWith(prefix)`. */
  predicate StartsWith(hay: string, prefix: string)
  {
    prefix <= hay
  }

  /** `hay.includes(needle)`: `needle` occurs in `hay` at some position. */
  predicate Includes(hay: string, needle: string)
    decreases |hay|
  {
    needle <= hay || (|hay| > 0 && Includes(hay[1..], needle))
  }

  /** Every string includes the empty string. */
  lemma IncludesEmpty(hay: string)
    ensures Includes(hay, "")
  {
  }

  /** `includes` means an occurrence at some offset. */
  lemma {:induction false} IncludesAt(hay: string, needle: string, k: int)
    requires 0 <= k <= |hay| - |needle| && hay[k..k + |needle|] == needle
    ensures Includes(hay, needle)
  {
    if k > 0 {
      assert hay[1..][k - 1..k - 1 + |needle|] == hay[k..k + |needle|];
      IncludesAt(hay[1..], needle, k - 1);
    } else {
      assert needle <= hay;
    }
  }

  /** The characters `trim` removes: ECMAScript's WhiteSpace (tab, vertical
      tab, form feed, space, no-break space, the byte order mark and the space
      separators) and LineTerminator (line feed, carriage return, line and
      paragraph separators). */
  predicate IsSpace(c: char)
  {
    c == '\t' || c == '\U{000B}' || c == '\U{000C}' || c == ' ' ||
    c == '\U{00A0}' || c == '\U{FEFF}' ||
    c == '\U{1680}' || '\U{2000}' <= c <= '\U{200A}' || c == '\U{202F}' ||
    c == '\U{205F}' || c == '\U{3000}' ||
    c == '\n' || c == '\r' || c == '\U{2028}' || c == '\U{2029}'
  }

  function TrimStart(s: string): string
  {
    if s != [] && IsSpace(s[0]) then TrimStart(s[1..]) else s
  }

  function TrimEnd(s: string): string
  {
    if s != [] && IsSpace(s[|s| - 1]) then TrimEnd(s[..|s| - 1]) else s
  }

  /** `trimStart` drops a prefix made of whitespace and stops at the first
      other character. */
  lemma {:induction false} TrimStartDropsBlankPrefix(s: string)
    ensures |TrimStart(s)| <= |s| && TrimStart(s) == s[|s| - |TrimStart(s)|..]
    ensures TrimStart(s) == [] || !IsSpace(TrimStart(s)[0])
    ensures forall i :: 0 <= i < |s| - |TrimStart(s)| ==> IsSpace(s[i])
  {
    if s != [] && IsSpace(s[0]) {
      TrimStartDropsBlankPrefix(s[1..]);
      forall i | 0 <= i < |s| - |TrimStart(s)| ensures IsSpace(s[i]) {
        if i > 0 { assert s[i] == s[1..][i - 1]; }
      }
    }
  }

  /** `trimEnd` drops a suffix made of whitespace and stops at the last
      other character. */
  lemma {:induction false} TrimEndDropsBlankSuffix(s: string)
    ensures |TrimEnd(s)| <= |s| && TrimEnd(s) == s[..|TrimEnd(s)|]
    ensures TrimEnd(s) == [] || !IsSpace(TrimEnd(s)[|TrimEnd(s)| - 1])
    ensures forall i :: |TrimEnd(s)| <= i < |s| ==> IsSpace(s[i])
  {
    if s != [] && IsSpace(s[|s| - 1]) {
      TrimEndDropsBlankSuffix(s[..|s| - 1]);
      forall i | |TrimEnd(s)| <= i < |s| ensures IsSpace(s[i]) {
        if i < |s| - 1 { assert s[i] == s[..|s| - 1][i]; }
      }
    }
  }

  /** `s.trim()`. */
  function Trim(s: string): (r: string)
    ensures |r| <= |s|
    ensures r == [] || (!IsSpace(r[0]) && !IsSpace(r[|r| - 1]))
  {
    TrimStartDropsBlankPrefix(s);
    TrimEndDropsBlankSuffix(TrimStart(s));
    TrimEnd(TrimStart(s))
  }

  /** `trimStart` of a string with a whitespace character appended. */
  lemma {:induction false} TrimStartSnocSpace(s: string, c: char)
    requires IsSpace(c)
    ensures TrimStart(s + [c]) == if TrimStart(s) == [] then [] else TrimStart(s) + [c]
  {
    if s != [] {
      assert (s + [c])[1..] == s[1..] + [c];
      if IsSpace(s[0]) {
        TrimStartSnocSpace(s[1..], c);
      }
    } else {
      assert [c][1..] == [];
    }
  }

  /** Whitespace around a string, at either end, is cut by `trim`: in
      particular vertical tab and form feed are, like the space. */
  lemma TrimDropsSurroundingSpace(s: string, c: char, d: char)
    requires IsSpace(c) && IsSpace(d)
    ensures Trim([c] + s + [d]) == Trim(s)
  {
    assert ([c] + s + [d])[1..] == s + [d];
    TrimStartSnocSpace(s, d);
    var t := TrimStart(s);
    if t != [] {
      assert (t + [d])[..|t|] == t;
    }
  }

  /** `trim` yields the empty string exactly for blank strings. */
  lemma TrimEmptyIffBlank(s: string)
    ensures Trim(s) == "" <==> forall i :: 0 <= i < |s| ==> IsSpace(s[i])
  {
    var t := TrimStart(s);
    TrimStartDropsBlankPrefix(s);
    TrimEndDropsBlankSuffix(t);
    if Trim(s) == "" {
      // an all-blank `t` would have been trimmed away by `trimStart`
      assert t == [];
    } else {
      var r := Trim(s);
      assert !IsSpace(r[0]);
      assert r[0] == t[0] == s[|s| - |t|];
    }
  }

  /** A trimmed string neither starts nor ends with whitespace, so trimming
      again changes nothing. */
  lemma TrimIdempotent(s: string)
    ensures Trim(Trim(s)) == Trim(s)
  {
    var t := TrimStart(s);
    var r := TrimEnd(t);
    TrimStartDropsBlankPrefix(s);
    TrimEndDropsBlankSuffix(t);
    TrimStartDropsBlankPrefix(r);
    TrimEndDropsBlankSuffix(r);
    if r != [] {
      assert r[0] == t[0];
    }
  }

  predicate IsWildcard(c: char)
  {
    c == '%' || c == '_'
  }

  /** `q.replace(/[%_]/g, '\\$&')`: a backslash before every `%` and `_`. */
  function EscapeLike(s: string): (r: string)
    ensures |r| >= |s|
  {
    if s == [] then []
    else (if IsWildcard(s[0]) then ['\\', s[0]] else [s[0]]) + EscapeLike(s[1..])
  }

  /** Reads an escaped pattern back: a backslash before a wildcard is dropped. */
  function UnescapeLike(s: string): string
  {
    if s == [] then []
    else if |s| >= 2 && s[0] == '\\' && IsWildcard(s[1]) then [s[1]] + UnescapeLike(s[2..])
    else [s[0]] + UnescapeLike(s[1..])
  }

  /** Every wildcard in an escaped string is preceded by a backslash. */
  predicate NoBareWildcard(r: string)
  {
    forall i :: 0 <= i < |r| && IsWildcard(r[i]) ==> i > 0 && r[i - 1] == '\\'
  }

  lemma {:induction false} EscapeLikeGuardsWildcards(s: string)
    ensures NoBareWildcard(EscapeLike(s))
  {
    if s != [] {
      EscapeLikeGuardsWildcards(s[1..]);
      var head := if IsWildcard(s[0]) then ['\\', s[0]] else [s[0]];
      var r := EscapeLike(s);
      assert r == head + EscapeLike(s[1..]);
      forall i | 0 <= i < |r| && IsWildcard(r[i]) ensures i > 0 && r[i - 1] == '\\' {
        if i >= |head| {
          var j := i - |head|;
          assert r[i] == EscapeLike(s[1..])[j];
          if j > 0 {
            assert r[i - 1] == EscapeLike(s[1..])[j - 1];
          }
        }
      }
    }
  }

  /** For a query without backslashes the escaping loses nothing: reading the
      pattern back yields the query. */
  lemma {:induction false} UnescapeEscapeLike(s: string)
    requires forall i :: 0 <= i < |s| ==> s[i] != '\\'
    ensures UnescapeLike(EscapeLike(s)) == s
  {
    if s != [] {
      var rest := EscapeLike(s[1..]);
      UnescapeEscapeLike(s[1..]);
      if IsWildcard(s[0]) {
        assert EscapeLike(s) == ['\\', s[0]] + rest;
        assert (['\\', s[0]] + rest)[2..] == rest;
      } else {
        assert EscapeLike(s) == [s[0]] + rest;
        assert ([s[0]] + rest)[1..] == rest;
      }
    }
  }

  /** `String(n)` for an integer. */
  function IntToString(n: int): (r: string)
    ensures |r| >= 1
  {
    if n < 0 then "-" + NatToString(-n) else NatToString(n)
  }

  function NatToString(n: nat): (r: string)
    ensures |r| >= 1
    ensures forall i :: 0 <= i < |r| ==> '0' <= r[i] <= '9'
    decreases n
  {
    var d := ['0' + (n % 10) as char];
    if n < 10 then d else NatToString(n / 10) + d
  }
}
