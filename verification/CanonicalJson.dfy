/** canonicalStringify: a key-sorting JSON printer, a parser that undoes it, and the exact meaning
    of "two values print the same text". */
module CanonicalJson {
  import opened Js

  datatype Field<+V> = Field(key: string, value: V)

  /** A JSON tree. Objects list their fields in insertion order; `Undefined` is the host's
      undefined, which the printer meets as a field value (or, in other callers, inside an array). */
  datatype Json =
    | Undefined
    | Null
    | Bool(b: bool)
    | Num(n: int)
    | Str(s: string)
    | Arr(items: seq<Json>)
    | Obj(fields: seq<Field<Json>>)

  // ----- Key order: Array.prototype.sort compares UTF-16 code units -----

  function Utf16Unit(c: char): (u: seq<int>)
    ensures u != []
  {
    var n := c as int;
    if n < 0x10000 then [n]
    else [0xD800 + (n - 0x10000) / 0x400, 0xDC00 + (n - 0x10000) % 0x400]
  }

  function Utf16(s: string): seq<int> {
    if s == "" then [] else Utf16Unit(s[0]) + Utf16(s[1..])
  }

  predicate UnitsLe(a: seq<int>, b: seq<int>) {
    a == [] || (b != [] && (a[0] < b[0] || (a[0] == b[0] && UnitsLe(a[1..], b[1..]))))
  }

  predicate KeyLe(a: string, b: string) {
    UnitsLe(Utf16(a), Utf16(b))
  }

  /** Stable insertion sort of fields by key. */
  function Insert<V>(x: Field<V>, s: seq<Field<V>>): seq<Field<V>> {
    if s == [] || KeyLe(x.key, s[0].key) then [x] + s else [s[0]] + Insert(x, s[1..])
  }

  function SortByKey<V>(s: seq<Field<V>>): (r: seq<Field<V>>)
    ensures |r| == |s|
  {
    if s == [] then [] else InsertLength(s[0], SortByKey(s[1..])); Insert(s[0], SortByKey(s[1..]))
  }

  lemma InsertLength<V>(x: Field<V>, s: seq<Field<V>>)
    ensures |Insert(x, s)| == |s| + 1
  {
  }

  // ----- The printer -----

  function Digit(d: int): char
    requires 0 <= d < 10
  {
    ('0' as int + d) as char
  }

  function PrintNat(n: nat): (s: string)
    ensures s != "" && forall i :: 0 <= i < |s| ==> '0' <= s[i] <= '9'
  {
    if n < 10 then [Digit(n)] else PrintNat(n / 10) + [Digit(n % 10)]
  }

  /** Decimal text of an integer, as Number and BigInt print it. */
  function Decimal(n: int): (s: string)
    ensures s != ""
  {
    if n < 0 then "-" + PrintNat(-n) else PrintNat(n)
  }

  function HexDigit(d: int): char
    requires 0 <= d < 16
  {
    if d < 10 then ('0' as int + d) as char else ('a' as int + d - 10) as char
  }

  /** JSON string escaping (RFC 8259, section 7) in the short forms JSON.stringify emits. */
  function Escape(c: char): string {
    if c == '\"' then "\\\""
    else if c == '\\' then "\\\\"
    else if c as int == 8 then "\\b"
    else if c as int == 9 then "\\t"
    else if c as int == 10 then "\\n"
    else if c as int == 12 then "\\f"
    else if c as int == 13 then "\\r"
    else if (c as int) < 32 then "\\u00" + [HexDigit(c as int / 16), HexDigit(c as int % 16)]
    else [c]
  }

  function EscapeAll(s: string): string {
    if s == "" then "" else Escape(s[0]) + EscapeAll(s[1..])
  }

  function Quote(s: string): string {
    "\"" + EscapeAll(s) + "\""
  }

  /** canonicalStringify. An undefined field value prints as the word, as string concatenation does. */
  function Print(v: Json): string
    decreases v, 0
  {
    match v
    case Undefined => "undefined"
    case Null => "null"
    case Bool(b) => if b then "true" else "false"
    case Num(n) => Decimal(n)
    case Str(s) => Quote(s)
    case Arr(xs) => "[" + JoinTexts(PrintItems(xs)) + "]"
    case Obj(fs) => "{" + JoinFields(SortByKey(PrintValues(fs))) + "}"
  }

  /** The array branch: Array.prototype.join prints undefined as the empty string. */
  function PrintItems(xs: seq<Json>): (r: seq<string>)
    ensures |r| == |xs|
    ensures forall i :: 0 <= i < |xs| ==> r[i] == PrintItem(xs[i])
    decreases xs, 0
  {
    if xs == [] then [] else [PrintItem(xs[0])] + PrintItems(xs[1..])
  }

  function PrintItem(v: Json): string
    decreases v, 1
  {
    if v.Undefined? then "" else Print(v)
  }

  function PrintValues(fs: seq<Field<Json>>): (r: seq<Field<string>>)
    ensures |r| == |fs|
  {
    if fs == [] then [] else [Field(fs[0].key, Print(fs[0].value))] + PrintValues(fs[1..])
  }

  function JoinTexts(ts: seq<string>): string {
    if ts == [] then ""
    else if |ts| == 1 then ts[0] else ts[0] + "," + JoinTexts(ts[1..])
  }

  function JoinFields(ps: seq<Field<string>>): string {
    if ps == [] then ""
    else if |ps| == 1 then PrintField(ps[0]) else PrintField(ps[0]) + "," + JoinFields(ps[1..])
  }

  function PrintField(p: Field<string>): string {
    Quote(p.key) + ":" + p.value
  }

  // ----- The parser -----

  predicate IsDigit(c: char) { '0' <= c <= '9' }

  function HexValue(c: char): Option<int> {
    if '0' <= c <= '9' then Some(c as int - '0' as int)
    else if 'a' <= c <= 'f' then Some(c as int - 'a' as int + 10)
    else None
  }

  datatype Parsed<+T> = Fail | Got(value: T, rest: string)

  function ParseDigits(s: string, acc: int): (r: (int, string))
    ensures |r.1| <= |s|
    decreases |s|
  {
    if s != "" && IsDigit(s[0]) then ParseDigits(s[1..], acc * 10 + (s[0] as int - '0' as int)) else (acc, s)
  }

  function ParseInt(s: string): (r: Parsed<int>)
    ensures r.Got? ==> |r.rest| < |s|
  {
    if s == "" then Fail
    else if s[0] == '-' then
      if |s| > 1 && IsDigit(s[1]) then var (n, t) := ParseDigits(s[1..], 0); Got(-n, t) else Fail
    else if IsDigit(s[0]) then
      var (n, t) := ParseDigits(s[1..], s[0] as int - '0' as int); Got(n, t)
    else Fail
  }

  /** One character of a quoted string: its value, and how many characters it took. */
  function ParseChar(s: string): (r: Parsed<char>)
    requires s != ""
    ensures r.Got? ==> |r.rest| < |s|
  {
    if s[0] != '\\' then Got(s[0], s[1..])
    else if |s| < 2 then Fail
    else if s[1] == '\"' || s[1] == '\\' then Got(s[1], s[2..])
    else if s[1] == 'b' then Got(8 as char, s[2..])
    else if s[1] == 't' then Got(9 as char, s[2..])
    else if s[1] == 'n' then Got(10 as char, s[2..])
    else if s[1] == 'f' then Got(12 as char, s[2..])
    else if s[1] == 'r' then Got(13 as char, s[2..])
    else if s[1] == 'u' && |s| >= 6 && s[2] == '0' && s[3] == '0' && HexValue(s[4]).Some? && HexValue(s[5]).Some? then
      Got((HexValue(s[4]).value * 16 + HexValue(s[5]).value) as char, s[6..])
    else Fail
  }

  /** The rest of a string whose opening quote has been read. */
  function ParseString(s: string): (r: Parsed<string>)
    ensures r.Got? ==> |r.rest| < |s|
    decreases |s|
  {
    if s == "" then Fail
    else if s[0] == '\"' then Got("", s[1..])
    else
      match ParseChar(s)
      case Fail => Fail
      case Got(c, t) =>
        match ParseString(t)
        case Fail => Fail
        case Got(cs, u) => Got([c] + cs, u)
  }

  function ParseWord(s: string, word: string, v: Json): (r: Parsed<Json>)
    requires word != ""
    ensures r.Got? ==> |r.rest| < |s|
  {
    if word <= s then Got(v, s[|word|..]) else Fail
  }

  function ParseValue(s: string): (r: Parsed<Json>)
    ensures r.Got? ==> |r.rest| < |s|
    decreases |s|, 0
  {
    if s == "" then Fail
    else if s[0] == 'u' then ParseWord(s, "undefined", Undefined)
    else if s[0] == 'n' then ParseWord(s, "null", Null)
    else if s[0] == 't' then ParseWord(s, "true", Bool(true))
    else if s[0] == 'f' then ParseWord(s, "false", Bool(false))
    else if s[0] == '\"' then
      match ParseString(s[1..]) case Fail => Fail case Got(t, rest) => Got(Str(t), rest)
    else if s[0] == '[' then
      if |s| > 1 && s[1] == ']' then Got(Arr([]), s[2..])
      else match ParseItems(s[1..]) case Fail => Fail case Got(xs, rest) => Got(Arr(xs), rest)
    else if s[0] == '{' then
      if |s| > 1 && s[1] == '}' then Got(Obj([]), s[2..])
      else match ParseFields(s[1..]) case Fail => Fail case Got(fs, rest) => Got(Obj(fs), rest)
    else
      match ParseInt(s) case Fail => Fail case Got(n, rest) => Got(Num(n), rest)
  }

  /** Items up to and including the closing bracket; an empty item is undefined. */
  function ParseItems(s: string): (r: Parsed<seq<Json>>)
    ensures r.Got? ==> |r.rest| < |s|
    decreases |s|, 1
  {
    var head := if s != "" && (s[0] == ',' || s[0] == ']') then Got(Undefined, s) else ParseValue(s);
    if head.Fail? || head.rest == "" then Fail
    else if head.rest[0] == ']' then Got([head.value], head.rest[1..])
    else if head.rest[0] == ',' then
      match ParseItems(head.rest[1..]) case Fail => Fail case Got(xs, t) => Got([head.value] + xs, t)
    else Fail
  }

  /** Fields up to and including the closing brace. */
  function ParseFields(s: string): (r: Parsed<seq<Field<Json>>>)
    ensures r.Got? ==> |r.rest| < |s|
    decreases |s|, 1
  {
    if s == "" || s[0] != '\"' then Fail
    else
      var k := ParseString(s[1..]);
      if k.Fail? || k.rest == "" || k.rest[0] != ':' then Fail
      else
        var v := ParseValue(k.rest[1..]);
        if v.Fail? || v.rest == "" then Fail
        else if v.rest[0] == '}' then Got([Field(k.value, v.value)], v.rest[1..])
        else if v.rest[0] == ',' then
          match ParseFields(v.rest[1..])
          case Fail => Fail
          case Got(fs, t) => Got([Field(k.value, v.value)] + fs, t)
        else Fail
  }

  // ----- The value a text stands for -----

  /** [undefined] and [] both print as "[]"; Dense picks the shared reading. */
  function Dense(xs: seq<Json>): seq<Json> {
    if xs == [Undefined] then [] else xs
  }

  /** The canonical representative: fields sorted at every depth, [undefined] read as []. */
  function Canon(v: Json): Json {
    match v
    case Arr(xs) => Arr(if xs == [Undefined] then [] else CanonItems(xs))
    case Obj(fs) => Obj(SortByKey(CanonValues(fs)))
    case _ => v
  }

  function CanonItems(xs: seq<Json>): (r: seq<Json>)
    ensures |r| == |xs|
    ensures forall i :: 0 <= i < |xs| ==> r[i] == Canon(xs[i])
  {
    if xs == [] then [] else [Canon(xs[0])] + CanonItems(xs[1..])
  }

  function CanonValues(fs: seq<Field<Json>>): (r: seq<Field<Json>>)
    ensures |r| == |fs|
    ensures forall i :: 0 <= i < |fs| ==> r[i] == Field(fs[i].key, Canon(fs[i].value))
  {
    if fs == [] then [] else [Field(fs[0].key, Canon(fs[0].value))] + CanonValues(fs[1..])
  }

  /** Objects of the host language never repeat a key. */
  ghost predicate WellFormed(v: Json) {
    match v
    case Arr(xs) => forall i :: 0 <= i < |xs| ==> WellFormed(xs[i])
    case Obj(fs) =>
      && (forall i, j :: 0 <= i < j < |fs| ==> fs[i].key != fs[j].key)
      && (forall i :: 0 <= i < |fs| ==> WellFormed(fs[i].value))
    case _ => true
  }

  /** Equality up to the order of object keys (and up to [undefined] versus []). */
  ghost predicate SameUpToKeyOrder(a: Json, b: Json)
    decreases a
  {
    match a
    case Arr(xs) =>
      && b.Arr?
      && |Dense(xs)| == |Dense(b.items)|
      && forall i :: 0 <= i < |Dense(xs)| ==> SameUpToKeyOrder(Dense(xs)[i], Dense(b.items)[i])
    case Obj(fs) => b.Obj? && EachHasTwin(fs, b.fields) && EachIsTwin(fs, b.fields)
    case _ => a == b
  }

  /** Every field of fs occurs in gs, and every field of gs occurs in fs. */
  ghost predicate EachHasTwin(fs: seq<Field<Json>>, gs: seq<Field<Json>>)
    decreases fs, 1
  {
    forall i :: 0 <= i < |fs| ==> HasTwin(fs[i], gs)
  }

  ghost predicate EachIsTwin(fs: seq<Field<Json>>, gs: seq<Field<Json>>)
    decreases fs, 1
  {
    forall j :: 0 <= j < |gs| ==> IsTwin(fs, gs[j])
  }

  ghost predicate HasTwin(f: Field<Json>, gs: seq<Field<Json>>)
    decreases f
  {
    exists j :: 0 <= j < |gs| && f.key == gs[j].key && SameUpToKeyOrder(f.value, gs[j].value)
  }

  ghost predicate IsTwin(fs: seq<Field<Json>>, g: Field<Json>)
    decreases fs, 0
  {
    exists i :: 0 <= i < |fs| && fs[i].key == g.key && SameUpToKeyOrder(fs[i].value, g.value)
  }
}
