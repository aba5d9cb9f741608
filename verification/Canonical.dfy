/** Canonical JSON: sorted keys, no spaces, no floats, non-ASCII text kept.

    The printer is `json.dumps(value, ensure_ascii=False, sort_keys=True,
    separators=(",", ":"))` on the values `_validate_json_value` accepts.  The
    parser follows sections 2 to 7 of RFC 8259 without fractions and exponents
    and, like the loader used on adapter results, refuses repeated keys. */
module Canonical {
  import opened Outcomes

  datatype Field = Field(key: string, value: Json)

  /** The values that can be printed.  An object keeps its insertion order. */
  datatype Json =
    | Null
    | Bool(b: bool)
    | Int(n: int)
    | Str(s: string)
    | List(items: seq<Json>)
    | Tuple(items: seq<Json>)
    | Object(fields: seq<Field>)

  function Keys(fs: seq<Field>): set<string> {
    set f | f in fs :: f.key
  }

  predicate DistinctKeys(fs: seq<Field>) {
    forall j, k | 0 <= j < k < |fs| :: fs[j].key != fs[k].key
  }

  /** A mapping has one value per key, at every depth. */
  predicate WellFormed(v: Json) {
    match v
    case List(items) => forall x | x in items :: WellFormed(x)
    case Tuple(items) => forall x | x in items :: WellFormed(x)
    case Object(fields) => DistinctKeys(fields) && forall f | f in fields :: WellFormed(f.value)
    case _ => true
  }

  // ----- key order

  predicate Less(a: string, b: string) {
    b != [] && (a == [] || a[0] < b[0] || (a[0] == b[0] && Less(a[1..], b[1..])))
  }

  lemma {:induction false} LessIsTotal(a: string, b: string)
    ensures a == b || Less(a, b) || Less(b, a)
  {
    if a != [] && b != [] && a[0] == b[0] {
      LessIsTotal(a[1..], b[1..]);
      assert a == [a[0]] + a[1..] && b == [b[0]] + b[1..];
    }
  }

  lemma {:induction false} LessIsStrict(a: string, b: string)
    ensures Less(a, b) ==> !Less(b, a) && a != b
  {
    if a != [] && b != [] {
      LessIsStrict(a[1..], b[1..]);
    }
  }

  lemma {:induction false} LessIsTransitive(a: string, b: string, c: string)
    requires Less(a, b) && Less(b, c)
    ensures Less(a, c)
  {
    if a != [] && a[0] == b[0] == c[0] {
      LessIsTransitive(a[1..], b[1..], c[1..]);
    }
  }

  predicate SortedFields(fs: seq<Field>) {
    forall j, k | 0 <= j < k < |fs| :: Less(fs[j].key, fs[k].key)
  }

  // ----- normal form: lists for tuples, keys in order

  function InsertField(f: Field, fs: seq<Field>): (r: seq<Field>)
    ensures multiset(r) == multiset(fs) + multiset{f}
  {
    if fs == [] then [f]
    else if Less(f.key, fs[0].key) then
      assert fs == [fs[0]] + fs[1..];
      [f] + fs
    else
      assert fs == [fs[0]] + fs[1..];
      [fs[0]] + InsertField(f, fs[1..])
  }

  function SortFields(fs: seq<Field>): (r: seq<Field>)
    ensures multiset(r) == multiset(fs)
  {
    if fs == [] then []
    else
      assert fs == [fs[0]] + fs[1..];
      InsertField(fs[0], SortFields(fs[1..]))
  }

  function Normalize(v: Json): Json
    decreases v, 1
  {
    match v
    case List(items) => List(NormalizeItems(items))
    case Tuple(items) => List(NormalizeItems(items))
    case Object(fields) => Object(SortFields(NormalizeFields(fields)))
    case _ => v
  }

  function NormalizeItems(xs: seq<Json>): (r: seq<Json>)
    ensures |r| == |xs|
    decreases xs, 0
  {
    if xs == [] then [] else [Normalize(xs[0])] + NormalizeItems(xs[1..])
  }

  function NormalizeFields(fs: seq<Field>): (r: seq<Field>)
    ensures |r| == |fs|
    decreases fs, 0
  {
    if fs == [] then [] else [Field(fs[0].key, Normalize(fs[0].value))] + NormalizeFields(fs[1..])
  }

  /** A value in normal form: no tuples, keys strictly in order. */
  predicate Normal(v: Json) {
    match v
    case List(items) => forall x | x in items :: Normal(x)
    case Tuple(_) => false
    case Object(fields) => SortedFields(fields) && forall f | f in fields :: Normal(f.value)
    case _ => true
  }

  // ----- printer

  function HexDigit(n: int): char
    requires 0 <= n < 16
  {
    "0123456789abcdef"[n]
  }

  function Escape(c: char): string {
    if c == '"' then "\\\""
    else if c == '\\' then "\\\\"
    else if c == 8 as char then "\\b"
    else if c == 12 as char then "\\f"
    else if c == '\n' then "\\n"
    else if c == '\r' then "\\r"
    else if c == '\t' then "\\t"
    else if c < ' ' then "\\u00" + [HexDigit(c as int / 16), HexDigit(c as int % 16)]
    else [c]
  }

  function PrintChars(s: string): string {
    if s == [] then [] else Escape(s[0]) + PrintChars(s[1..])
  }

  function PrintNat(n: nat): (r: string)
    ensures r != []
  {
    if n < 10 then [HexDigit(n)] else PrintNat(n / 10) + [HexDigit(n % 10)]
  }

  function PrintInt(n: int): string {
    if n < 0 then "-" + PrintNat(-n) else PrintNat(n)
  }

  function PrintString(s: string): string {
    "\"" + PrintChars(s) + "\""
  }

  /** Prints a value with its fields in the order they stand in. */
  function Render(v: Json): string
    decreases v, 1
  {
    match v
    case Null => "null"
    case Bool(b) => if b then "true" else "false"
    case Int(n) => PrintInt(n)
    case Str(s) => PrintString(s)
    case List(items) => "[" + RenderItems(items) + "]"
    case Tuple(items) => "[" + RenderItems(items) + "]"
    case Object(fields) => "{" + RenderFields(fields) + "}"
  }

  function RenderItems(xs: seq<Json>): string
    decreases xs, 0
  {
    if xs == [] then []
    else if |xs| == 1 then Render(xs[0])
    else Render(xs[0]) + "," + RenderItems(xs[1..])
  }

  function RenderField(f: Field): string
    decreases f, 0
  {
    PrintString(f.key) + ":" + Render(f.value)
  }

  function RenderFields(fs: seq<Field>): string
    decreases fs, 0
  {
    if fs == [] then []
    else if |fs| == 1 then RenderField(fs[0])
    else RenderField(fs[0]) + "," + RenderFields(fs[1..])
  }

  /** `canonical_json`. */
  function Print(v: Json): string {
    Render(Normalize(v))
  }

  // ----- parser

  function SkipSpace(s: string): (r: string)
    ensures |r| <= |s|
  {
    if s != [] && s[0] in " \t\n\r" then SkipSpace(s[1..]) else s
  }

  predicate IsDigit(c: char) {
    '0' <= c <= '9'
  }

  function DigitPrefix(s: string): (n: nat)
    ensures n <= |s|
    ensures forall k | 0 <= k < n :: IsDigit(s[k])
  {
    if s != [] && IsDigit(s[0]) then 1 + DigitPrefix(s[1..]) else 0
  }

  function DigitsValue(s: string): nat
    requires forall k | 0 <= k < |s| :: IsDigit(s[k])
  {
    if s == [] then 0
    else
      var last := s[|s| - 1];
      assert IsDigit(last);
      10 * DigitsValue(s[..|s| - 1]) + (last as int - '0' as int)
  }

  /** A number without leading zeros; what follows is left to the caller. */
  function ParseNat(s: string): (r: Option<(nat, string)>)
    ensures r.Some? ==> |r.value.1| < |s|
  {
    var n := DigitPrefix(s);
    if n == 0 then None
    else if s[0] == '0' then Some((0, s[1..]))
    else Some((DigitsValue(s[..n]), s[n..]))
  }

  function ParseInt(s: string): (r: Option<(Json, string)>)
    ensures r.Some? ==> |r.value.1| < |s| && WellFormed(r.value.0)
  {
    if s != [] && s[0] == '-' then
      match ParseNat(s[1..])
      case None => None
      case Some((n, rest)) => Some((Int(0 - n as int), rest))
    else
      match ParseNat(s)
      case None => None
      case Some((n, rest)) => Some((Int(n), rest))
  }

  function HexValue(c: char): Option<nat> {
    if '0' <= c <= '9' then Some(c as int - '0' as int)
    else if 'a' <= c <= 'f' then Some(c as int - 'a' as int + 10)
    else if 'A' <= c <= 'F' then Some(c as int - 'A' as int + 10)
    else None
  }

  function ParseHex4(s: string): (r: Option<nat>)
    ensures r.Some? ==> |s| >= 4 && r.value < 0x1_0000
  {
    if |s| < 4 then None
    else
      match (HexValue(s[0]), HexValue(s[1]), HexValue(s[2]), HexValue(s[3]))
      case (Some(a), Some(b), Some(c), Some(d)) =>
        if a < 16 && b < 16 && c < 16 && d < 16 then Some(((a * 16 + b) * 16 + c) * 16 + d) else None
      case _ => None
  }

  /** The character after a backslash; a lone surrogate has no UTF-8 form. */
  function ParseEscape(s: string): (r: Option<(char, string)>)
    ensures r.Some? ==> |r.value.1| < |s|
  {
    if s == [] then None
    else if s[0] in "\"\\/" then Some((s[0], s[1..]))
    else if s[0] == 'b' then Some((8 as char, s[1..]))
    else if s[0] == 'f' then Some((12 as char, s[1..]))
    else if s[0] == 'n' then Some(('\n', s[1..]))
    else if s[0] == 'r' then Some(('\r', s[1..]))
    else if s[0] == 't' then Some(('\t', s[1..]))
    else if s[0] != 'u' then None
    else
      match ParseHex4(s[1..])
      case None => None
      case Some(high) =>
        if high < 0xD800 || 0xE000 <= high then Some((high as char, s[5..]))
        else if high < 0xDC00 && |s| >= 7 && s[5] == '\\' && s[6] == 'u' then
          match ParseHex4(s[7..])
          case Some(low) =>
            if 0xDC00 <= low < 0xE000 then
              Some(((0x1_0000 + (high - 0xD800) * 0x400 + (low - 0xDC00)) as char, s[11..]))
            else None
          case None => None
        else None
  }

  /** The rest of a string after its opening quote. */
  function ParseChars(s: string): (r: Option<(string, string)>)
    ensures r.Some? ==> |r.value.1| < |s|
    decreases |s|
  {
    if s == [] || s[0] < ' ' then None
    else if s[0] == '"' then Some(([], s[1..]))
    else if s[0] == '\\' then
      match ParseEscape(s[1..])
      case None => None
      case Some((c, rest)) =>
        match ParseChars(rest)
        case None => None
        case Some((cs, end)) => Some(([c] + cs, end))
    else
      match ParseChars(s[1..])
      case None => None
      case Some((cs, end)) => Some(([s[0]] + cs, end))
  }

  function ParseValue(s: string): (r: Option<(Json, string)>)
    ensures r.Some? ==> |r.value.1| < |s| && WellFormed(r.value.0)
    decreases |s|, 0
  {
    var t := SkipSpace(s);
    if t == [] then None
    else if "null" <= t then Some((Null, t[4..]))
    else if "true" <= t then Some((Bool(true), t[4..]))
    else if "false" <= t then Some((Bool(false), t[5..]))
    else if t[0] == '"' then
      match ParseChars(t[1..])
      case None => None
      case Some((cs, rest)) => Some((Str(cs), rest))
    else if t[0] == '[' then
      var u := SkipSpace(t[1..]);
      if u != [] && u[0] == ']' then Some((List([]), u[1..]))
      else
        match ParseItems(u)
        case None => None
        case Some((items, rest)) => Some((List(items), rest))
    else if t[0] == '{' then
      var u := SkipSpace(t[1..]);
      if u != [] && u[0] == '}' then Some((Object([]), u[1..]))
      else
        match ParseFields(u)
        case None => None
        case Some((fields, rest)) => if DistinctKeys(fields) then Some((Object(fields), rest)) else None
    else ParseInt(t)
  }

  /** One or more values up to the closing bracket. */
  function ParseItems(s: string): (r: Option<(seq<Json>, string)>)
    ensures r.Some? ==> |r.value.1| < |s| && forall x | x in r.value.0 :: WellFormed(x)
    decreases |s|, 1
  {
    match ParseValue(s)
    case None => None
    case Some((v, rest)) =>
      var t := SkipSpace(rest);
      if t != [] && t[0] == ']' then Some(([v], t[1..]))
      else if t != [] && t[0] == ',' then
        match ParseItems(t[1..])
        case None => None
        case Some((vs, end)) => Some(([v] + vs, end))
      else None
  }

  function ParseField(s: string): (r: Option<(Field, string)>)
    ensures r.Some? ==> |r.value.1| < |s| && WellFormed(r.value.0.value)
    decreases |s|, 1
  {
    var t := SkipSpace(s);
    if t == [] || t[0] != '"' then None
    else
      match ParseChars(t[1..])
      case None => None
      case Some((key, rest)) =>
        var u := SkipSpace(rest);
        if u == [] || u[0] != ':' then None
        else
          match ParseValue(u[1..])
          case None => None
          case Some((v, end)) => Some((Field(key, v), end))
  }

  /** One or more members up to the closing brace. */
  function ParseFields(s: string): (r: Option<(seq<Field>, string)>)
    ensures r.Some? ==> |r.value.1| < |s| && forall f | f in r.value.0 :: WellFormed(f.value)
    decreases |s|, 2
  {
    match ParseField(s)
    case None => None
    case Some((f, rest)) =>
      var t := SkipSpace(rest);
      if t != [] && t[0] == '}' then Some(([f], t[1..]))
      else if t != [] && t[0] == ',' then
        match ParseFields(t[1..])
        case None => None
        case Some((fs, end)) => Some(([f] + fs, end))
      else None
  }

  function Parse(s: string): (r: Option<Json>)
    ensures r.Some? ==> WellFormed(r.value)
  {
    match ParseValue(s)
    case None => None
    case Some((v, rest)) => if SkipSpace(rest) == [] then Some(v) else None
  }
}
