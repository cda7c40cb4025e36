/** The JSON path and text utilities of src/lib/jsonText.ts: walking a parsed value
    along a path, rendering a path for display, and sniffing the line ending and
    indentation of a JSON text. */
module JsonText {
  import opened Wrappers
  import opened Json
  import opened Text

  /** A path segment: an array index or an object key. */
  datatype Seg = Index(i: int) | Name(s: string)

  type JsonPath = seq<Seg>

  // ---------------------------------------------------------------------------
  // getValueAtPath
  // ---------------------------------------------------------------------------

  predicate IsDigit(c: char)
  {
    '0' <= c <= '9'
  }

  function DigitsValue(s: string): nat
    requires forall i :: 0 <= i < |s| ==> IsDigit(s[i])
    decreases |s|
  {
    if s == [] then 0
    else
      assert IsDigit(s[|s| - 1]);
      DigitsValue(s[..|s| - 1]) * 10 + (s[|s| - 1] as int - '0' as int)
  }

  /** The array index a property name denotes: decimal digits without a leading zero. */
  function CanonicalIndex(s: string): (r: Option<nat>)
    ensures r.Some? ==> s != [] && forall i :: 0 <= i < |s| ==> IsDigit(s[i])
  {
    if s != [] && (forall i :: 0 <= i < |s| ==> IsDigit(s[i])) && (|s| == 1 || s[0] != '0')
    then Some(DigitsValue(s)) else None
  }

  /** A named property of an array: its `length`, or an element named by its index. */
  function ArrayProperty(items: seq<Json>, name: string): (r: Option<Json>)
    ensures name == "length" ==> r == Some(JNum(|items|))
    ensures r.Some? && name != "length" ==> r.value in items
  {
    if name == "length" then Some(JNum(|items|))
    else
      var index := CanonicalIndex(name);
      if index.Some? && index.value < |items| then Some(items[index.value]) else None
  }

  /** One iteration of the walk: `null` and `undefined` end it, an index needs an array,
      a name needs an object (an array answers for its own properties). */
  function Step(cur: Option<Json>, seg: Seg): (r: Option<Json>)
    ensures cur.None? || cur == Some(JNull) ==> r.None?
    ensures seg.Index? && r.Some? ==> cur.value.JArr? && 0 <= seg.i < |cur.value.items| && r.value == cur.value.items[seg.i]
    ensures seg.Name? && r.Some? ==> cur.value.JObj? || cur.value.JArr?
    ensures seg.Name? && cur.Some? && cur.value.JObj? ==> r == Get(cur.value.fields, seg.s)
  {
    if cur.None? || cur.value.JNull? then None
    else match seg
      case Index(i) =>
        if cur.value.JArr? && 0 <= i < |cur.value.items| then Some(cur.value.items[i]) else None
      case Name(s) =>
        match cur.value
        case JObj(fields) => Get(fields, s)
        case JArr(items) => ArrayProperty(items, s)
        case _ => None
  }

  /** The value `getValueAtPath` finds, one segment after the other. */
  function ValueAt(v: Option<Json>, path: JsonPath): Option<Json>
    decreases |path|
  {
    if path == [] then v else ValueAt(Step(v, path[0]), path[1..])
  }

  /** Once the walk has reached `undefined` it stays there. */
  lemma {:induction false} ValueAtUndefined(path: JsonPath)
    ensures ValueAt(None, path) == None
    decreases |path|
  {
    if path != [] {
      ValueAtUndefined(path[1..]);
    }
  }

  /** Walking `p + q` is walking `p` and then `q`. */
  lemma {:induction false} ValueAtConcat(v: Option<Json>, p: JsonPath, q: JsonPath)
    ensures ValueAt(v, p + q) == ValueAt(ValueAt(v, p), q)
    decreases |p|
  {
    if p == [] {
      assert p + q == q;
    } else {
      assert (p + q)[0] == p[0];
      assert (p + q)[1..] == p[1..] + q;
      ValueAtConcat(Step(v, p[0]), p[1..], q);
    }
  }

  /** The empty path gives the value itself; null and undefined give undefined for any
      further segment, as does an index into a non-array or a name into a primitive. */
  lemma ValueAtCases(v: Option<Json>, seg: Seg, rest: JsonPath)
    ensures ValueAt(v, []) == v
    ensures v.None? || v == Some(JNull) ==> ValueAt(v, [seg] + rest) == None
    ensures seg.Index? && v.Some? && !v.value.JArr? ==> ValueAt(v, [seg] + rest) == None
    ensures seg.Name? && v.Some? && !(v.value.JObj? || v.value.JArr?) ==> ValueAt(v, [seg] + rest) == None
  {
    assert ([seg] + rest)[1..] == rest;
    ValueAtUndefined(rest);
  }

  /** `getValueAtPath`. */
  method GetValueAtPath(value: Option<Json>, path: JsonPath) returns (r: Option<Json>)
    ensures r == ValueAt(value, path)
  {
    var cur := value;
    for i := 0 to |path|
      invariant ValueAt(value, path) == ValueAt(cur, path[i..])
    {
      assert path[i..][1..] == path[i + 1..];
      if cur.None? || cur.value.JNull? {
        ValueAtUndefined(path[i + 1..]);
        return None;
      }
      match path[i]
      case Index(n) =>
        if !cur.value.JArr? {
          ValueAtUndefined(path[i + 1..]);
          return None;
        }
        cur := if 0 <= n < |cur.value.items| then Some(cur.value.items[n]) else None;
      case Name(s) =>
        if !(cur.value.JObj? || cur.value.JArr?) {
          ValueAtUndefined(path[i + 1..]);
          return None;
        }
        cur := if cur.value.JObj? then Get(cur.value.fields, s) else ArrayProperty(cur.value.items, s);
    }
    r := cur;
  }

  // ---------------------------------------------------------------------------
  // pathToDisplay
  // ---------------------------------------------------------------------------

  predicate IsIdentStart(c: char)
  {
    ('a' <= c <= 'z') || ('A' <= c <= 'Z') || c == '_' || c == '$'
  }

  predicate IsIdentPart(c: char)
  {
    IsIdentStart(c) || IsDigit(c)
  }

  /** The regular expression `^[a-zA-Z_$][\w$]*$`. */
  predicate IsIdent(s: string)
  {
    s != [] && IsIdentStart(s[0]) && forall i :: 1 <= i < |s| ==> IsIdentPart(s[i])
  }

  function HexDigit(d: nat): char
    requires d < 16
  {
    if d < 10 then ('0' as int + d) as char else ('a' as int + d - 10) as char
  }

  /** The letter of a two-character escape, for the characters that have one. */
  function ShortEscape(c: char): Option<char>
  {
    if c == '"' then Some('"') else if c == '\\' then Some('\\')
    else if c == '\U{0008}' then Some('b') else if c == '\t' then Some('t')
    else if c == '\n' then Some('n') else if c == '\U{000C}' then Some('f')
    else if c == '\r' then Some('r') else None
  }

  /** The character a two-character escape stands for. */
  function ShortUnescape(e: char): (r: Option<char>)
    ensures r.Some? ==> ShortEscape(r.value) == Some(e)
  {
    if e == '"' then Some('"') else if e == '\\' then Some('\\')
    else if e == 'b' then Some('\U{0008}') else if e == 't' then Some('\t')
    else if e == 'n' then Some('\n') else if e == 'f' then Some('\U{000C}')
    else if e == 'r' then Some('\r') else None
  }

  lemma ShortEscapeInverse(c: char)
    requires ShortEscape(c).Some?
    ensures ShortUnescape(ShortEscape(c).value) == Some(c)
  {
  }

  /** How `JSON.stringify` writes one character inside a string literal: a short escape,
      `\u00XX` for the other control characters, the character itself otherwise. */
  function EscapeChar(c: char): (r: string)
    ensures |r| >= 1
    ensures r[0] == '\\' <==> (c == '"' || c == '\\' || c < ' ')
    ensures r[0] != '\\' ==> r == [c]
  {
    var short := ShortEscape(c);
    if short.Some? then ['\\', short.value]
    else if c < ' ' then "\\u00" + [HexDigit(c as int / 16), HexDigit(c as int % 16)]
    else [c]
  }

  function Escape(s: string): string
  {
    if s == [] then "" else EscapeChar(s[0]) + Escape(s[1..])
  }

  /** `JSON.stringify` of a string. */
  function Quote(s: string): string
  {
    "\"" + Escape(s) + "\""
  }

  function HexValue(c: char): Option<nat>
  {
    if '0' <= c <= '9' then Some(c as int - '0' as int)
    else if 'a' <= c <= 'f' then Some(c as int - 'a' as int + 10)
    else None
  }

  /** Reads back the body of a string literal written by `Escape`. */
  function Unescape(t: string): Option<string>
    decreases |t|
  {
    if t == [] then Some([])
    else if t[0] != '\\' then
      var rest := Unescape(t[1..]);
      if rest.Some? then Some([t[0]] + rest.value) else None
    else if |t| < 2 then None
    else if ShortUnescape(t[1]).Some? then
      var rest := Unescape(t[2..]);
      if rest.Some? then Some([ShortUnescape(t[1]).value] + rest.value) else None
    else if t[1] == 'u' && |t| >= 6 && t[2] == '0' && t[3] == '0' && HexValue(t[4]).Some? && HexValue(t[5]).Some? then
      var code := HexValue(t[4]).value * 16 + HexValue(t[5]).value;
      var rest := Unescape(t[6..]);
      if rest.Some? then Some([code as char] + rest.value) else None
    else None
  }

  lemma UnescapeControl(c: char, rest: string)
    requires c < ' ' && ShortEscape(c).None?
    ensures Unescape(EscapeChar(c) + rest) ==
      if Unescape(rest).Some? then Some([c] + Unescape(rest).value) else None
  {
    var hi, lo := c as int / 16, c as int % 16;
    var t := EscapeChar(c) + rest;
    assert t == ['\\', 'u', '0', '0', HexDigit(hi), HexDigit(lo)] + rest;
    assert HexValue(HexDigit(hi)) == Some(hi);
    assert HexValue(HexDigit(lo)) == Some(lo);
    assert (hi * 16 + lo) as char == c;
    assert t[6..] == rest;
  }

  lemma UnescapeShort(c: char, rest: string)
    requires ShortEscape(c).Some?
    ensures Unescape(EscapeChar(c) + rest) ==
      if Unescape(rest).Some? then Some([c] + Unescape(rest).value) else None
  {
    var t := EscapeChar(c) + rest;
    ShortEscapeInverse(c);
    assert t == ['\\', ShortEscape(c).value] + rest;
    assert t[2..] == rest;
  }

  lemma UnescapeChar(c: char, rest: string)
    ensures Unescape(EscapeChar(c) + rest) ==
      if Unescape(rest).Some? then Some([c] + Unescape(rest).value) else None
  {
    if ShortEscape(c).Some? {
      UnescapeShort(c, rest);
    } else if c < ' ' {
      UnescapeControl(c, rest);
    } else {
      var t := EscapeChar(c) + rest;
      assert t[1..] == rest;
    }
  }

  /** The quoted form of a segment reads back as the segment. */
  lemma {:induction false} UnescapeEscape(s: string)
    ensures Unescape(Escape(s)) == Some(s)
  {
    if s != [] {
      assert s == [s[0]] + s[1..];
      UnescapeEscape(s[1..]);
      UnescapeChar(s[0], Escape(s[1..]));
    }
  }

  /** The display text of one segment. */
  function RenderSeg(seg: Seg): (r: string)
    ensures |r| >= 2
  {
    match seg
    case Index(i) => "[" + IntToString(i) + "]"
    case Name(s) => if IsIdent(s) then "." + s else "[" + Quote(s) + "]"
  }

  /** The rendered segments of a path, one after the other. */
  function RenderPath(path: JsonPath): string
    decreases |path|
  {
    if path == [] then "" else RenderSeg(path[0]) + RenderPath(path[1..])
  }

  lemma {:induction false} RenderPathConcat(p: JsonPath, q: JsonPath)
    ensures RenderPath(p + q) == RenderPath(p) + RenderPath(q)
    decreases |p|
  {
    if p == [] {
      assert p + q == q;
    } else {
      assert (p + q)[0] == p[0];
      assert (p + q)[1..] == p[1..] + q;
      RenderPathConcat(p[1..], q);
    }
  }

  lemma RenderPrefixStep(path: JsonPath, i: nat)
    requires i < |path|
    ensures RenderPath(path[..i + 1]) == RenderPath(path[..i]) + RenderSeg(path[i])
  {
    assert path[..i + 1] == path[..i] + [path[i]];
    RenderPathConcat(path[..i], [path[i]]);
    assert RenderPath([path[i]]) == RenderSeg(path[i]);
  }

  lemma Associative(a: string, b: string, c: string)
    ensures (a + b) + c == a + (b + c)
  {
  }

  /** `pathToDisplay`. */
  method PathToDisplay(path: JsonPath) returns (out: string)
    ensures out == "$" + RenderPath(path)
    ensures out[0] == '$' && (path == [] <==> out == "$")
  {
    if |path| == 0 {
      return "$";
    }
    out := "$";
    for i := 0 to |path|
      invariant out == "$" + RenderPath(path[..i])
    {
      RenderPrefixStep(path, i);
      var piece;
      match path[i] {
        case Index(n) =>
          piece := "[" + IntToString(n) + "]";
        case Name(s) =>
          if IsIdent(s) {
            piece := "." + s;
          } else {
            piece := "[" + Quote(s) + "]";
          }
      }
      assert piece == RenderSeg(path[i]);
      Associative("$", RenderPath(path[..i]), piece);
      out := out + piece;
    }
    assert path[..|path|] == path;
    assert |RenderPath(path)| >= 2;
  }

  /** The display of a longer path extends the display of its prefix by the rendering
      of each further segment. */
  lemma DisplayExtends(p: JsonPath, seg: Seg)
    ensures "$" + RenderPath(p + [seg]) == "$" + RenderPath(p) + RenderSeg(seg)
  {
    RenderPathConcat(p, [seg]);
    assert RenderPath([seg]) == RenderSeg(seg);
  }

  // ---------------------------------------------------------------------------
  // detectEol / detectIndent
  // ---------------------------------------------------------------------------

  /** `detectEol`: CRLF when the text contains one anywhere, LF otherwise. */
  function DetectEol(text: string): (r: string)
    ensures r == "\r\n" || r == "\n"
    ensures r == "\r\n" <==> Contains(text, "\r\n")
  {
    if Contains(text, "\r\n") then "\r\n" else "\n"
  }

  /** A text with no carriage return is sniffed as LF; lines joined by CRLF as CRLF. */
  lemma DetectEolExamples(text: string, a: string, b: string)
    ensures '\r' !in text ==> DetectEol(text) == "\n"
    ensures DetectEol(a + "\r\n" + b) == "\r\n"
  {
    assert forall i :: OccursAt(text, "\r\n", i) ==> text[i] == '\r';
    var t := a + "\r\n" + b;
    assert OccursAt(t, "\r\n", |a|) by {
      assert t[|a|..|a| + 2] == "\r\n";
    }
  }

  datatype Indent = Indent(insertSpaces: bool, tabSize: nat)

  /** The number of consecutive `c` characters from position `j` on. */
  function RunLength(text: string, j: nat, c: char): (k: nat)
    ensures j + k <= |text| || (j >= |text| && k == 0)
    ensures forall m :: j <= m < j + k ==> text[m] == c
    ensures j + k < |text| ==> text[j + k] != c
    decreases |text| - j
  {
    if j < |text| && text[j] == c then 1 + RunLength(text, j + 1, c) else 0
  }

  /** `\n`, then `k >= 1` characters `c`, then a double quote, starting at `i`. */
  predicate RunAt(text: string, i: nat, c: char, k: nat)
  {
    k >= 1 && i + k + 1 < |text| && text[i] == '\n' &&
    (forall m :: i + 1 <= m <= i + k ==> text[m] == c) && text[i + k + 1] == '"'
  }

  /** At a given position the run, when there is one, has one length. */
  lemma RunAtUnique(text: string, i: nat, c: char, k: nat, k': nat)
    requires c != '"'
    requires RunAt(text, i, c, k) && RunAt(text, i, c, k')
    ensures k == k'
  {
  }

  function MatchAt(text: string, i: nat, c: char): (r: Option<nat>)
    requires c != '"'
    ensures r.Some? ==> RunAt(text, i, c, r.value)
    ensures r.None? ==> forall k: nat :: !RunAt(text, i, c, k)
  {
    if i < |text| && text[i] == '\n' then
      var k := RunLength(text, i + 1, c);
      if k >= 1 && i + 1 + k < |text| && text[i + 1 + k] == '"' then Some(k)
      else
        assert forall k': nat :: !RunAt(text, i, c, k') by {
          forall k': nat ensures !RunAt(text, i, c, k') {
          }
        }
        None
    else None
  }

  /** The leftmost run of `c` at or after `from`, as a regular-expression search finds it. */
  function FirstRun(text: string, c: char, from: nat): (r: Option<(nat, nat)>)
    requires c != '"'
    ensures r.Some? ==> from <= r.value.0 && RunAt(text, r.value.0, c, r.value.1)
    ensures r.Some? ==> forall i: nat, k: nat :: from <= i < r.value.0 ==> !RunAt(text, i, c, k)
    ensures r.None? ==> forall i: nat, k: nat :: from <= i ==> !RunAt(text, i, c, k)
    decreases |text| - from
  {
    if from >= |text| then None
    else
      var m := MatchAt(text, from, c);
      if m.Some? then Some((from, m.value)) else FirstRun(text, c, from + 1)
  }

  /** `detectIndent`: tabs when a newline is followed by tabs and a quote anywhere;
      otherwise the first newline-spaces-quote run decides, when 1 to 8 spaces long;
      otherwise two spaces. */
  function DetectIndent(text: string): (r: Indent)
    ensures (exists i: nat, k: nat :: RunAt(text, i, '\t', k)) ==> r == Indent(false, 1)
    ensures r.insertSpaces && r.tabSize != 2 ==>
      (forall i: nat, k: nat :: !RunAt(text, i, '\t', k)) &&
      exists i: nat :: RunAt(text, i, ' ', r.tabSize) && forall j: nat, k: nat :: j < i ==> !RunAt(text, j, ' ', k)
    ensures !r.insertSpaces ==> r == Indent(false, 1)
    ensures !r.insertSpaces <==> exists i: nat, k: nat :: RunAt(text, i, '\t', k)
    ensures (forall i: nat, k: nat :: !RunAt(text, i, '\t', k) && !RunAt(text, i, ' ', k)) ==> r == Indent(true, 2)
    ensures r.insertSpaces ==> 1 <= r.tabSize <= 8
  {
    if FirstRun(text, '\t', 0).Some? then Indent(false, 1)
    else
      var spaces := FirstRun(text, ' ', 0);
      if spaces.Some? && 1 <= spaces.value.1 <= 8 then Indent(true, spaces.value.1) else Indent(true, 2)
  }

  /** The first space run decides: a run of 1 to 8 spaces after the first newline that
      starts any run gives that width, unless a tab run exists somewhere. */
  lemma DetectIndentFirstRun(text: string, i: nat, k: nat)
    requires forall j: nat, m: nat :: !RunAt(text, j, '\t', m)
    requires RunAt(text, i, ' ', k) && forall j: nat, m: nat :: j < i ==> !RunAt(text, j, ' ', m)
    ensures DetectIndent(text) == if k <= 8 then Indent(true, k) else Indent(true, 2)
  {
    var spaces := FirstRun(text, ' ', 0);
    assert spaces.Some?;
    assert spaces.value.0 == i;
    RunAtUnique(text, i, ' ', k, spaces.value.1);
  }
}
