/** String helpers shared by the TypeScript and the Rust side: whitespace trimming
    (JavaScript's and Rust's whitespace sets differ), prefix/suffix tests, substring
    search, concatenation with a separator and ASCII lower-casing. */
module Text {

  /** Characters removed by `String.prototype.trim`: ECMAScript WhiteSpace and LineTerminator. */
  predicate IsJsSpace(c: char)
  {
    ('\t' <= c <= '\r') || c == ' ' || c == '\U{00A0}' || c == '\U{1680}' ||
    ('\U{2000}' <= c <= '\U{200A}') || c == '\U{2028}' || c == '\U{2029}' ||
    c == '\U{202F}' || c == '\U{205F}' || c == '\U{3000}' || c == '\U{FEFF}'
  }

  /** Characters removed by Rust's `str::trim`: the Unicode White_Space property.
      It differs from the JavaScript set in U+0085 (included) and U+FEFF (excluded). */
  predicate IsRustSpace(c: char)
  {
    ('\t' <= c <= '\r') || c == ' ' || c == '\U{0085}' || c == '\U{00A0}' || c == '\U{1680}' ||
    ('\U{2000}' <= c <= '\U{200A}') || c == '\U{2028}' || c == '\U{2029}' ||
    c == '\U{202F}' || c == '\U{205F}' || c == '\U{3000}'
  }

  function TrimStart(s: string, space: char -> bool): (r: string)
  {
    if |s| > 0 && space(s[0]) then TrimStart(s[1..], space) else s
  }

  function TrimEnd(s: string, space: char -> bool): (r: string)
  {
    if |s| > 0 && space(s[|s| - 1]) then TrimEnd(s[..|s| - 1], space) else s
  }

  function Trim(s: string, space: char -> bool): string
  {
    TrimEnd(TrimStart(s, space), space)
  }

  /** Trimming the start skips exactly a leading run of whitespace. */
  lemma {:induction false} TrimStartPadded(pad: string, rest: string, space: char -> bool)
    requires forall k :: 0 <= k < |pad| ==> space(pad[k])
    requires rest != [] && !space(rest[0])
    ensures TrimStart(pad + rest, space) == rest
  {
    if pad == [] {
      assert pad + rest == rest;
    } else {
      assert (pad + rest)[1..] == pad[1..] + rest;
      TrimStartPadded(pad[1..], rest, space);
    }
  }

  /** Trimming the end drops exactly a trailing run of whitespace. */
  lemma {:induction false} TrimEndPadded(rest: string, pad: string, space: char -> bool)
    requires forall k :: 0 <= k < |pad| ==> space(pad[k])
    requires rest != [] && !space(rest[|rest| - 1])
    ensures TrimEnd(rest + pad, space) == rest
  {
    if pad == [] {
      assert rest + pad == rest;
    } else {
      assert (rest + pad)[..|rest + pad| - 1] == rest + pad[..|pad| - 1];
      TrimEndPadded(rest, pad[..|pad| - 1], space);
    }
  }

  /** `s.trim()` in JavaScript. */
  function JsTrim(s: string): string
  {
    Trim(s, IsJsSpace)
  }

  /** `s.trim()` in Rust. */
  function RustTrim(s: string): string
  {
    Trim(s, IsRustSpace)
  }

  /** A string with no whitespace at either end. */
  predicate Unpadded(s: string, space: char -> bool)
  {
    s == [] || (!space(s[0]) && !space(s[|s| - 1]))
  }

  predicate AllSpace(s: string, space: char -> bool)
  {
    forall k :: 0 <= k < |s| ==> space(s[k])
  }

  lemma {:induction false} TrimStartShape(s: string, space: char -> bool)
    ensures var r := TrimStart(s, space);
      |r| <= |s| && r == s[|s| - |r|..] && AllSpace(s[..|s| - |r|], space) &&
      (r == [] || !space(r[0]))
  {
    if |s| > 0 && space(s[0]) {
      TrimStartShape(s[1..], space);
      var r := TrimStart(s[1..], space);
      assert s[..|s| - |r|] == [s[0]] + s[1..][..|s| - 1 - |r|];
    }
  }

  lemma {:induction false} TrimEndShape(s: string, space: char -> bool)
    ensures var r := TrimEnd(s, space);
      |r| <= |s| && r == s[..|r|] && AllSpace(s[|r|..], space) &&
      (r == [] || !space(r[|r| - 1]))
  {
    if |s| > 0 && space(s[|s| - 1]) {
      var p := s[..|s| - 1];
      TrimEndShape(p, space);
      var r := TrimEnd(p, space);
      assert s[|r|..] == p[|r|..] + [s[|s| - 1]];
    }
  }

  /** `Trim(s)` is the slice of `s` left after removing a whitespace run at each end,
      and it has no whitespace at either end. */
  lemma TrimShape(s: string, space: char -> bool)
    ensures var r := Trim(s, space);
      exists i, j :: 0 <= i <= j <= |s| && r == s[i..j] &&
        AllSpace(s[..i], space) && AllSpace(s[j..], space)
    ensures Unpadded(Trim(s, space), space)
  {
    TrimStartShape(s, space);
    var t := TrimStart(s, space);
    TrimEndShape(t, space);
    var r := TrimEnd(t, space);
    var i := |s| - |t|;
    var j := i + |r|;
    assert r == s[i..j];
    assert s[j..] == t[|r|..];
    if r != [] {
      assert r[0] == t[0];
    }
  }

  /** Trimming an unpadded string changes nothing; in particular trimming is idempotent. */
  lemma TrimUnpadded(s: string, space: char -> bool)
    requires Unpadded(s, space)
    ensures Trim(s, space) == s
  {
  }

  lemma TrimIdempotent(s: string, space: char -> bool)
    ensures Trim(Trim(s, space), space) == Trim(s, space)
  {
    TrimShape(s, space);
    TrimUnpadded(Trim(s, space), space);
  }

  /** A string trims to "" exactly when every character of it is whitespace. */
  lemma {:induction false} TrimEmptyIff(s: string, space: char -> bool)
    ensures Trim(s, space) == [] <==> AllSpace(s, space)
  {
    TrimStartShape(s, space);
    var t := TrimStart(s, space);
    TrimEndShape(t, space);
    var r := TrimEnd(t, space);
    assert s[..|s|] == s;
    assert t != [] ==> t[0] == s[|s| - |t|];
    assert r == [] ==> t[|r|..] == t;
  }

  predicate StartsWith(s: string, prefix: string)
  {
    |prefix| <= |s| && s[..|prefix|] == prefix
  }

  predicate EndsWith(s: string, suffix: string)
  {
    |suffix| <= |s| && s[|s| - |suffix|..] == suffix
  }

  predicate OccursAt(s: string, t: string, i: int)
  {
    0 <= i && i + |t| <= |s| && s[i..i + |t|] == t
  }

  /** `s.includes(t)`. */
  predicate Contains(s: string, t: string)
  {
    exists i | 0 <= i <= |s| - |t| :: OccursAt(s, t, i)
  }

  /** `parts.join(sep)`. */
  function JoinWith(parts: seq<string>, sep: string): string
  {
    if |parts| == 0 then ""
    else if |parts| == 1 then parts[0]
    else parts[0] + sep + JoinWith(parts[1..], sep)
  }

  function LowerChar(c: char): char
  {
    if 'A' <= c <= 'Z' then (c as int + 32) as char else c
  }

  /** `s.toLowerCase()`, restricted to ASCII letters. */
  function Lower(s: string): (r: string)
    ensures |r| == |s|
    ensures forall i :: 0 <= i < |s| ==> r[i] == LowerChar(s[i])
  {
    if s == [] then [] else [LowerChar(s[0])] + Lower(s[1..])
  }

  /** Decimal rendering of an integer, as `String(n)` gives it for an integral number. */
  function NatToString(n: nat): (r: string)
    ensures |r| > 0
    decreases n
  {
    if n < 10 then [DigitChar(n)] else NatToString(n / 10) + [DigitChar(n % 10)]
  }

  function DigitChar(d: nat): char
    requires d < 10
  {
    ('0' as int + d) as char
  }

  function IntToString(n: int): string
  {
    if n < 0 then "-" + NatToString(-n) else NatToString(n)
  }
}
