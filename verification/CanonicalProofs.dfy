/** The parser undoes the printer, so printing is injective up to key order and
    the difference between lists and tuples. */
module CanonicalProofs {
  import opened Outcomes
  import opened Canonical

  /** What may follow a number. */
  predicate Ends(rest: string) {
    rest == [] || !IsDigit(rest[0])
  }

  lemma Glue(a: string, b: string, c: string)
    ensures a + b + c == a + (b + c)
  {
  }

  lemma GlueNext(a: string, b: string, c: string, d: string, rest: string)
    ensures (a + b + c) + d + rest == a + (b + (c + d + rest))
  {
  }

  // ----- strings

  lemma HexDigitsRead(n: int)
    requires 0 <= n < 16
    ensures HexValue(HexDigit(n)) == Some(n)
  {
  }

  lemma ControlEscapeReads(c: char, rest: string)
    requires c < ' '
    ensures ParseEscape("u00" + [HexDigit(c as int / 16), HexDigit(c as int % 16)] + rest) == Some((c, rest))
  {
    var n := c as int;
    var s := "u00" + [HexDigit(n / 16), HexDigit(n % 16)] + rest;
    HexDigitsRead(n / 16);
    HexDigitsRead(n % 16);
    HexDigitsRead(0);
    assert s[1..][0] == '0' && s[1..][1] == '0' && s[1..][2] == HexDigit(n / 16) && s[1..][3] == HexDigit(n % 16);
    assert s[5..] == rest;
  }

  lemma ShortEscapeReads(c: char, rest: string)
    requires |Escape(c)| == 2
    ensures ParseEscape(Escape(c)[1..] + rest) == Some((c, rest))
  {
    assert (Escape(c)[1..] + rest)[1..] == rest;
  }

  lemma BackslashReads(s: string, c: char, rest: string)
    requires ParseEscape(s) == Some((c, rest)) && ParseChars(rest).Some?
    ensures ParseChars("\\" + s) == Some(([c] + ParseChars(rest).value.0, ParseChars(rest).value.1))
  {
    assert ("\\" + s)[1..] == s;
  }

  lemma EscapeReads(c: char, rest: string)
    requires ParseChars(rest).Some?
    ensures ParseChars(Escape(c) + rest) == Some(([c] + ParseChars(rest).value.0, ParseChars(rest).value.1))
  {
    if c >= ' ' && c != '"' && c != '\\' {
      PlainReads(c, rest);
    } else {
      EscapedReads(c, rest);
    }
  }

  lemma EscapedReads(c: char, rest: string)
    requires ParseChars(rest).Some? && Escape(c) != [c]
    ensures ParseChars(Escape(c) + rest) == Some(([c] + ParseChars(rest).value.0, ParseChars(rest).value.1))
  {
    var code := Escape(c)[1..];
    if |code| == 1 {
      ShortEscapeReads(c, rest);
    } else {
      ControlEscapeReads(c, rest);
    }
    EscapeText(c, rest);
    BackslashReads(code + rest, c, rest);
  }

  lemma EscapeText(c: char, rest: string)
    requires Escape(c) != [c]
    ensures Escape(c) + rest == "\\" + (Escape(c)[1..] + rest)
  {
  }

  lemma PlainReads(c: char, rest: string)
    requires c >= ' ' && c != '"' && c != '\\' && ParseChars(rest).Some?
    ensures ParseChars([c] + rest) == Some(([c] + ParseChars(rest).value.0, ParseChars(rest).value.1))
  {
    assert ([c] + rest)[0] == c && ([c] + rest)[1..] == rest;
  }

  lemma {:induction false} CharsRead(s: string, rest: string)
    ensures ParseChars(PrintChars(s) + "\"" + rest) == Some((s, rest))
  {
    if s == [] {
      assert (PrintChars(s) + "\"" + rest)[1..] == rest;
    } else {
      var tail := PrintChars(s[1..]) + "\"" + rest;
      CharsRead(s[1..], rest);
      EscapeReads(s[0], tail);
      assert PrintChars(s) + "\"" + rest == Escape(s[0]) + tail;
      assert [s[0]] + s[1..] == s;
    }
  }

  // ----- numbers

  lemma {:induction false} NatIsDigits(n: nat)
    ensures forall k | 0 <= k < |PrintNat(n)| :: IsDigit(PrintNat(n)[k])
    ensures DigitsValue(PrintNat(n)) == n
    ensures n > 0 ==> PrintNat(n)[0] != '0'
  {
    if n >= 10 {
      NatIsDigits(n / 10);
      var s := PrintNat(n);
      assert s[..|s| - 1] == PrintNat(n / 10);
      assert s[0] == PrintNat(n / 10)[0];
    } else {
      var s := PrintNat(n);
      assert s[..|s| - 1] == [];
    }
  }

  lemma {:induction false} DigitPrefixOf(s: string, rest: string)
    requires forall k | 0 <= k < |s| :: IsDigit(s[k])
    requires Ends(rest)
    ensures DigitPrefix(s + rest) == |s|
  {
    if s == [] {
      assert s + rest == rest;
    } else {
      assert (s + rest)[1..] == s[1..] + rest;
      DigitPrefixOf(s[1..], rest);
    }
  }

  lemma NatReads(n: nat, rest: string)
    requires Ends(rest)
    ensures ParseNat(PrintNat(n) + rest) == Some((n, rest))
  {
    var s := PrintNat(n);
    NatIsDigits(n);
    DigitPrefixOf(s, rest);
    assert (s + rest)[..|s|] == s && (s + rest)[|s|..] == rest;
    if n == 0 {
      assert (s + rest)[1..] == rest;
    }
  }

  lemma NegativeReads(s: string)
    requires ParseNat(s).Some?
    ensures ParseInt("-" + s) == Some((Int(0 - ParseNat(s).value.0 as int), ParseNat(s).value.1))
  {
    assert ("-" + s)[1..] == s;
  }

  lemma NaturalReads(n: nat, rest: string)
    requires ParseNat(PrintNat(n) + rest) == Some((n, rest))
    ensures ParseInt(PrintNat(n) + rest) == Some((Int(n), rest))
  {
    NatIsDigits(n);
    assert IsDigit(PrintNat(n)[0]);
    assert (PrintNat(n) + rest)[0] == PrintNat(n)[0];
  }

  lemma IntReads(n: int, rest: string)
    requires Ends(rest)
    ensures ParseInt(PrintInt(n) + rest) == Some((Int(n), rest))
  {
    if n < 0 {
      NatReads(-n, rest);
      Glue("-", PrintNat(-n), rest);
      NegativeReads(PrintNat(-n) + rest);
    } else {
      NatReads(n, rest);
      NaturalReads(n, rest);
    }
  }

  // ----- values

  /** The first character of a printed value. */
  predicate Opens(c: char) {
    c in "\"[{-ntf" || IsDigit(c)
  }

  lemma RenderOpens(v: Json)
    ensures Render(v) != [] && Opens(Render(v)[0])
  {
    if v.Int? && v.n >= 0 {
      NatIsDigits(v.n);
      assert IsDigit(PrintNat(v.n)[0]);
    }
  }

  lemma NoSpace(s: string)
    requires s != [] && s[0] !in " \t\n\r"
    ensures SkipSpace(s) == s
  {
  }

  lemma WordsRead(v: Json, rest: string)
    requires v.Null? || v.Bool?
    ensures ParseValue(Render(v) + rest) == Some((v, rest))
  {
    var t := Render(v) + rest;
    NoSpace(t);
    assert t[|Render(v)|..] == rest;
    if v == Bool(true) {
      assert t[0] == 't';
    } else if v == Bool(false) {
      assert t[0] == 'f';
    }
  }

  lemma NumbersRead(n: int, rest: string)
    requires Ends(rest)
    ensures ParseValue(Render(Int(n)) + rest) == Some((Int(n), rest))
  {
    var t := PrintInt(n) + rest;
    RenderOpens(Int(n));
    assert t[0] == PrintInt(n)[0];
    if n >= 0 {
      NatIsDigits(n);
      assert IsDigit(PrintNat(n)[0]);
    }
    NoSpace(t);
    IntReads(n, rest);
  }

  lemma QuoteReads(s: string)
    requires ParseChars(s).Some?
    ensures ParseValue("\"" + s) == Some((Str(ParseChars(s).value.0), ParseChars(s).value.1))
  {
    NoSpace("\"" + s);
    assert ("\"" + s)[1..] == s;
  }

  lemma StringsRead(s: string, rest: string)
    ensures ParseValue(PrintString(s) + rest) == Some((Str(s), rest))
  {
    CharsRead(s, rest);
    assert PrintString(s) + rest == "\"" + (PrintChars(s) + "\"" + rest);
    QuoteReads(PrintChars(s) + "\"" + rest);
  }

  lemma SortedKeysDiffer(fs: seq<Field>)
    requires SortedFields(fs)
    ensures DistinctKeys(fs)
  {
    forall j, k | 0 <= j < k < |fs|
      ensures fs[j].key != fs[k].key
    {
      LessIsStrict(fs[j].key, fs[k].key);
    }
  }

  lemma {:induction false} ValuesRead(v: Json, rest: string)
    requires Normal(v) && Ends(rest)
    ensures ParseValue(Render(v) + rest) == Some((v, rest))
    decreases v, 1
  {
    match v
    case Null => WordsRead(v, rest);
    case Bool(_) => WordsRead(v, rest);
    case Int(n) => NumbersRead(n, rest);
    case Str(s) => StringsRead(s, rest);
    case List(items) => ListsRead(items, rest);
    case Object(fields) => ObjectsRead(fields, rest);
  }

  lemma {:induction false} ListsRead(xs: seq<Json>, rest: string)
    requires forall x | x in xs :: Normal(x)
    ensures ParseValue("[" + RenderItems(xs) + "]" + rest) == Some((List(xs), rest))
    decreases xs, 1
  {
    var t := "[" + RenderItems(xs) + "]" + rest;
    var u := RenderItems(xs) + "]" + rest;
    assert t[0] == '[' && t[1..] == u;
    NoSpace(t);
    if xs == [] {
      assert u[0] == ']' && u[1..] == rest;
      NoSpace(u);
    } else {
      RenderOpens(xs[0]);
      assert u[0] == Render(xs[0])[0];
      NoSpace(u);
      ItemsRead(xs, rest);
    }
  }

  lemma LastItemReads(s: string, v: Json, rest: string)
    requires ParseValue(s) == Some((v, "]" + rest))
    ensures ParseItems(s) == Some(([v], rest))
  {
    NoSpace("]" + rest);
    assert ("]" + rest)[1..] == rest;
  }

  lemma NextItemReads(s: string, v: Json, more: string, vs: seq<Json>, rest: string)
    requires ParseValue(s) == Some((v, "," + more)) && ParseItems(more) == Some((vs, rest))
    ensures ParseItems(s) == Some(([v] + vs, rest))
  {
    NoSpace("," + more);
    assert ("," + more)[1..] == more;
  }

  lemma LastTextReads(xs: seq<Json>, rest: string)
    requires |xs| == 1
    requires ParseValue(Render(xs[0]) + ("]" + rest)) == Some((xs[0], "]" + rest))
    ensures ParseItems(RenderItems(xs) + "]" + rest) == Some((xs, rest))
  {
    LastItemReads(Render(xs[0]) + ("]" + rest), xs[0], rest);
    Glue(Render(xs[0]), "]", rest);
    assert xs == [xs[0]];
  }

  lemma NextTextReads(xs: seq<Json>, more: string, rest: string)
    requires |xs| > 1 && more == RenderItems(xs[1..]) + "]" + rest
    requires ParseValue(Render(xs[0]) + ("," + more)) == Some((xs[0], "," + more))
    requires ParseItems(more) == Some((xs[1..], rest))
    ensures ParseItems(RenderItems(xs) + "]" + rest) == Some((xs, rest))
  {
    NextItemReads(Render(xs[0]) + ("," + more), xs[0], more, xs[1..], rest);
    GlueNext(Render(xs[0]), ",", RenderItems(xs[1..]), "]", rest);
    assert xs == [xs[0]] + xs[1..];
  }

  lemma {:induction false} ItemsRead(xs: seq<Json>, rest: string)
    requires xs != [] && forall x | x in xs :: Normal(x)
    ensures ParseItems(RenderItems(xs) + "]" + rest) == Some((xs, rest))
    decreases xs, 0
  {
    if |xs| == 1 {
      ValuesRead(xs[0], "]" + rest);
      LastTextReads(xs, rest);
    } else {
      var more := RenderItems(xs[1..]) + "]" + rest;
      ValuesRead(xs[0], "," + more);
      ItemsRead(xs[1..], rest);
      NextTextReads(xs, more, rest);
    }
  }

  lemma FieldsOpen(fs: seq<Field>)
    requires fs != []
    ensures RenderFields(fs) != [] && RenderFields(fs)[0] == '"'
  {
    assert RenderField(fs[0])[0] == '"';
  }

  lemma {:induction false} ObjectsRead(fs: seq<Field>, rest: string)
    requires SortedFields(fs) && forall f | f in fs :: Normal(f.value)
    ensures ParseValue("{" + RenderFields(fs) + "}" + rest) == Some((Object(fs), rest))
    decreases fs, 2
  {
    var t := "{" + RenderFields(fs) + "}" + rest;
    var u := RenderFields(fs) + "}" + rest;
    assert t[0] == '{' && t[1..] == u;
    NoSpace(t);
    if fs == [] {
      assert u[0] == '}' && u[1..] == rest;
      NoSpace(u);
    } else {
      FieldsOpen(fs);
      assert u[0] == RenderFields(fs)[0];
      NoSpace(u);
      FieldsRead(fs, rest);
      SortedKeysDiffer(fs);
    }
  }

  lemma {:induction false} FieldReads(f: Field, rest: string)
    requires Normal(f.value) && Ends(rest)
    ensures ParseField(RenderField(f) + rest) == Some((f, rest))
    decreases f, 2
  {
    var value := Render(f.value) + rest;
    var key := PrintChars(f.key) + "\"" + (":" + value);
    CharsRead(f.key, ":" + value);
    ValuesRead(f.value, rest);
    FieldPartsRead(key, f.key, value);
    FieldText(f, rest);
  }

  lemma FieldText(f: Field, rest: string)
    ensures RenderField(f) + rest == "\"" + (PrintChars(f.key) + "\"" + (":" + (Render(f.value) + rest)))
  {
  }

  lemma FieldPartsRead(s: string, key: string, value: string)
    requires ParseChars(s) == Some((key, ":" + value)) && ParseValue(value).Some?
    ensures ParseField("\"" + s) == Some((Field(key, ParseValue(value).value.0), ParseValue(value).value.1))
  {
    NoSpace("\"" + s);
    NoSpace(":" + value);
    assert ("\"" + s)[1..] == s && (":" + value)[1..] == value;
  }

  lemma LastFieldReads(s: string, f: Field, rest: string)
    requires ParseField(s) == Some((f, "}" + rest))
    ensures ParseFields(s) == Some(([f], rest))
  {
    NoSpace("}" + rest);
    assert ("}" + rest)[1..] == rest;
  }

  lemma NextFieldReads(s: string, f: Field, more: string, fs: seq<Field>, rest: string)
    requires ParseField(s) == Some((f, "," + more)) && ParseFields(more) == Some((fs, rest))
    ensures ParseFields(s) == Some(([f] + fs, rest))
  {
    NoSpace("," + more);
    assert ("," + more)[1..] == more;
  }

  lemma FieldsText(fs: seq<Field>, rest: string)
    requires |fs| > 1
    ensures RenderFields(fs) + "}" + rest == RenderField(fs[0]) + ("," + (RenderFields(fs[1..]) + "}" + rest))
  {
    GlueNext(RenderField(fs[0]), ",", RenderFields(fs[1..]), "}", rest);
  }

  lemma {:induction false} FieldsRead(fs: seq<Field>, rest: string)
    requires fs != [] && forall f | f in fs :: Normal(f.value)
    ensures ParseFields(RenderFields(fs) + "}" + rest) == Some((fs, rest))
    decreases fs, 1
  {
    assert Normal(fs[0].value);
    if |fs| == 1 {
      FieldReads(fs[0], "}" + rest);
      LastFieldReads(RenderField(fs[0]) + ("}" + rest), fs[0], rest);
      Glue(RenderField(fs[0]), "}", rest);
      assert fs == [fs[0]];
    } else {
      var more := RenderFields(fs[1..]) + "}" + rest;
      FieldReads(fs[0], "," + more);
      FieldsRead(fs[1..], rest);
      NextFieldReads(RenderField(fs[0]) + ("," + more), fs[0], more, fs[1..], rest);
      FieldsText(fs, rest);
      assert fs == [fs[0]] + fs[1..];
    }
  }

  // ----- normal forms

  lemma {:induction false} InsertKeepsOrder(f: Field, fs: seq<Field>)
    requires SortedFields(fs) && f.key !in Keys(fs)
    ensures SortedFields(InsertField(f, fs))
  {
    if fs != [] {
      if Less(f.key, fs[0].key) {
        forall k | 0 < k < |fs|
          ensures Less(f.key, fs[k].key)
        {
          LessIsTransitive(f.key, fs[0].key, fs[k].key);
        }
      } else {
        LessIsTotal(f.key, fs[0].key);
        assert fs[0] in fs;
        InsertKeepsOrder(f, fs[1..]);
        forall g | g in InsertField(f, fs[1..])
          ensures Less(fs[0].key, g.key)
        {
          assert g in multiset(fs[1..]) + multiset{f};
          if g != f {
            assert g in fs[1..];
          }
        }
      }
    }
  }

  lemma {:induction false} SortKeepsFields(fs: seq<Field>)
    ensures forall f :: f in SortFields(fs) <==> f in fs
  {
    forall f
      ensures f in SortFields(fs) <==> f in fs
    {
      assert f in SortFields(fs) <==> f in multiset(SortFields(fs));
      assert f in fs <==> f in multiset(fs);
    }
  }

  lemma {:induction false} SortSorts(fs: seq<Field>)
    requires DistinctKeys(fs)
    ensures SortedFields(SortFields(fs))
  {
    if fs != [] {
      SortSorts(fs[1..]);
      SortKeepsFields(fs[1..]);
      InsertKeepsOrder(fs[0], SortFields(fs[1..]));
    }
  }

  lemma {:induction false} NormalizedItems(xs: seq<Json>)
    ensures forall k | 0 <= k < |xs| :: NormalizeItems(xs)[k] == Normalize(xs[k])
  {
    if xs != [] {
      NormalizedItems(xs[1..]);
    }
  }

  lemma {:induction false} NormalizedFields(fs: seq<Field>)
    ensures forall k | 0 <= k < |fs| :: NormalizeFields(fs)[k] == Field(fs[k].key, Normalize(fs[k].value))
  {
    if fs != [] {
      NormalizedFields(fs[1..]);
    }
  }

  lemma {:induction false} NormalizeIsNormal(v: Json)
    requires WellFormed(v)
    ensures Normal(Normalize(v))
    decreases v
  {
    match v
    case List(items) => ItemsAreNormal(items);
    case Tuple(items) => ItemsAreNormal(items);
    case Object(fields) =>
      NormalizedFields(fields);
      var fs := NormalizeFields(fields);
      SortSorts(fs);
      SortKeepsFields(fs);
      forall f | f in SortFields(fs)
        ensures Normal(f.value)
      {
        var k :| 0 <= k < |fs| && fs[k] == f;
        NormalizeIsNormal(fields[k].value);
      }
    case _ =>
  }

  lemma {:induction false} ItemsAreNormal(xs: seq<Json>)
    requires forall x | x in xs :: WellFormed(x)
    ensures forall x | x in NormalizeItems(xs) :: Normal(x)
    decreases xs
  {
    NormalizedItems(xs);
    forall k | 0 <= k < |xs|
      ensures Normal(NormalizeItems(xs)[k])
    {
      NormalizeIsNormal(xs[k]);
    }
  }

  // ----- main results

  /** Parsing a printed value gives the value back in normal form. */
  lemma RoundTrip(v: Json)
    requires WellFormed(v)
    ensures Parse(Print(v)) == Some(Normalize(v))
  {
    NormalizeIsNormal(v);
    ValuesRead(Normalize(v), []);
    assert Print(v) + [] == Print(v);
  }

  predicate Array(v: Json) {
    v.List? || v.Tuple?
  }

  /** Equal values, where objects are mappings and tuples count as lists. */
  ghost predicate Same(u: Json, v: Json)
    decreases u
  {
    if Array(u) then
      && Array(v)
      && |u.items| == |v.items|
      && forall k | 0 <= k < |u.items| :: Same(u.items[k], v.items[k])
    else if u.Object? then
      && v.Object?
      && Keys(u.fields) == Keys(v.fields)
      && forall f, g | f in u.fields && g in v.fields && f.key == g.key :: Same(f.value, g.value)
    else u == v
  }

  /** Two sorted lists of the same fields are the same list. */
  lemma {:induction false} SortedIsUnique(a: seq<Field>, b: seq<Field>)
    requires SortedFields(a) && SortedFields(b)
    requires forall f :: f in a <==> f in b
    ensures a == b
  {
    assert b != [] ==> b[0] in b;
    if a != [] {
      assert a[0] in b;
      if a[0] != b[0] {
        LessIsStrict(a[0].key, b[0].key);
      }
      forall f
        ensures f in a[1..] <==> f in b[1..]
      {
        LessIsStrict(a[0].key, a[0].key);
        assert f in a[1..] <==> f in a && f != a[0] by { TailOfSorted(a, f); }
        assert f in b[1..] <==> f in b && f != b[0] by { TailOfSorted(b, f); }
      }
      SortedIsUnique(a[1..], b[1..]);
      assert a == [a[0]] + a[1..] && b == [b[0]] + b[1..];
    }
  }

  lemma TailOfSorted(a: seq<Field>, f: Field)
    requires a != [] && SortedFields(a)
    ensures f in a[1..] <==> f in a && f != a[0]
  {
    LessIsStrict(a[0].key, a[0].key);
  }

  lemma {:induction false} SameIsEqualNormal(u: Json, v: Json)
    requires WellFormed(u) && WellFormed(v)
    ensures Same(u, v) <==> Normalize(u) == Normalize(v)
    decreases u
  {
    if Array(u) && Array(v) && |u.items| == |v.items| {
      NormalizedItems(u.items);
      NormalizedItems(v.items);
      forall k | 0 <= k < |u.items|
        ensures Same(u.items[k], v.items[k]) <==> NormalizeItems(u.items)[k] == NormalizeItems(v.items)[k]
      {
        SameIsEqualNormal(u.items[k], v.items[k]);
      }
      assert (forall k | 0 <= k < |u.items| :: NormalizeItems(u.items)[k] == NormalizeItems(v.items)[k])
             <==> NormalizeItems(u.items) == NormalizeItems(v.items);
    } else if u.Object? && v.Object? {
      forall f, g | f in u.fields && g in v.fields
        ensures Same(f.value, g.value) <==> Normalize(f.value) == Normalize(g.value)
      {
        SameIsEqualNormal(f.value, g.value);
      }
      SameObjects(u.fields, v.fields);
    }
  }

  predicate SameMapping(a: seq<Field>, b: seq<Field>) {
    && Keys(a) == Keys(b)
    && forall f, g | f in a && g in b && f.key == g.key :: Normalize(f.value) == Normalize(g.value)
  }

  lemma FieldsCarryOver(a: seq<Field>, b: seq<Field>, f: Field)
    requires SameMapping(a, b)
    requires f in NormalizeFields(a)
    ensures f in NormalizeFields(b)
  {
    NormalizedFields(a);
    NormalizedFields(b);
    var j :| 0 <= j < |a| && NormalizeFields(a)[j] == f;
    assert a[j] in a && a[j].key in Keys(a);
    var g :| g in b && g.key == a[j].key;
    var k :| 0 <= k < |b| && b[k] == g;
    assert NormalizeFields(b)[k] == f;
  }

  lemma KeysOfNormalized(fs: seq<Field>)
    ensures Keys(NormalizeFields(fs)) == Keys(fs)
  {
    NormalizedFields(fs);
    forall key | key in Keys(fs)
      ensures key in Keys(NormalizeFields(fs))
    {
      var k :| 0 <= k < |fs| && fs[k].key == key;
      assert NormalizeFields(fs)[k] in NormalizeFields(fs);
    }
  }

  lemma DistinctNormalized(fs: seq<Field>)
    requires DistinctKeys(fs)
    ensures DistinctKeys(NormalizeFields(fs))
  {
    NormalizedFields(fs);
  }

  lemma SortedMappingsAgree(a: seq<Field>, b: seq<Field>)
    requires DistinctKeys(a) && DistinctKeys(b) && SameMapping(a, b)
    ensures SortFields(NormalizeFields(a)) == SortFields(NormalizeFields(b))
  {
    forall f
      ensures f in NormalizeFields(a) <==> f in NormalizeFields(b)
    {
      if f in NormalizeFields(a) {
        FieldsCarryOver(a, b, f);
      }
      if f in NormalizeFields(b) {
        FieldsCarryOver(b, a, f);
      }
    }
    DistinctNormalized(a);
    DistinctNormalized(b);
    SortSorts(NormalizeFields(a));
    SortSorts(NormalizeFields(b));
    SortKeepsFields(NormalizeFields(a));
    SortKeepsFields(NormalizeFields(b));
    SortedIsUnique(SortFields(NormalizeFields(a)), SortFields(NormalizeFields(b)));
  }

  lemma AgreeingSortsMap(a: seq<Field>, b: seq<Field>)
    requires DistinctKeys(a) && DistinctKeys(b)
    requires SortFields(NormalizeFields(a)) == SortFields(NormalizeFields(b))
    ensures SameMapping(a, b)
  {
    SortKeepsFields(NormalizeFields(a));
    SortKeepsFields(NormalizeFields(b));
    KeysOfNormalized(a);
    KeysOfNormalized(b);
    forall f, g | f in a && g in b && f.key == g.key
      ensures Normalize(f.value) == Normalize(g.value)
    {
      NormalizedFieldIn(a, f);
      NormalizedFieldIn(b, g);
      DistinctNormalized(b);
      OneFieldPerKey(NormalizeFields(b), Field(f.key, Normalize(f.value)), Field(g.key, Normalize(g.value)));
    }
  }

  lemma NormalizedFieldIn(fs: seq<Field>, f: Field)
    requires f in fs
    ensures Field(f.key, Normalize(f.value)) in NormalizeFields(fs)
  {
    NormalizedFields(fs);
    var k :| 0 <= k < |fs| && fs[k] == f;
    assert NormalizeFields(fs)[k] == Field(f.key, Normalize(f.value));
  }

  lemma OneFieldPerKey(fs: seq<Field>, f: Field, g: Field)
    requires DistinctKeys(fs) && f in fs && g in fs && f.key == g.key
    ensures f == g
  {
  }

  lemma SameObjects(a: seq<Field>, b: seq<Field>)
    requires DistinctKeys(a) && DistinctKeys(b)
    ensures SameMapping(a, b) <==> SortFields(NormalizeFields(a)) == SortFields(NormalizeFields(b))
  {
    if SameMapping(a, b) {
      SortedMappingsAgree(a, b);
    }
    if SortFields(NormalizeFields(a)) == SortFields(NormalizeFields(b)) {
      AgreeingSortsMap(a, b);
    }
  }

  /** Canonical JSON is injective: equal texts exactly for equal values. */
  lemma PrintIsInjective(u: Json, v: Json)
    requires WellFormed(u) && WellFormed(v)
    ensures Print(u) == Print(v) <==> Same(u, v)
  {
    RoundTrip(u);
    RoundTrip(v);
    SameIsEqualNormal(u, v);
  }

  /** The gate of `parse_result`: decode, print again, compare. */
  predicate Gate(text: string) {
    Parse(text).Some? && Print(Parse(text).value) == text
  }

  /** The gate passes exactly the printer's own output. */
  lemma GatePassesPrinterOutput(text: string)
    ensures Gate(text) <==> exists v :: WellFormed(v) && Print(v) == text
  {
    if v :| WellFormed(v) && Print(v) == text {
      RoundTrip(v);
      NormalizeIsNormal(v);
      NormalIsWellFormed(Normalize(v));
      NormalizeTwice(v);
    }
  }

  lemma {:induction false} NormalIsWellFormed(v: Json)
    requires Normal(v)
    ensures WellFormed(v)
    decreases v
  {
    match v
    case List(items) =>
      forall x | x in items
        ensures WellFormed(x)
      {
        NormalIsWellFormed(x);
      }
    case Object(fields) =>
      SortedKeysDiffer(fields);
      forall f | f in fields
        ensures WellFormed(f.value)
      {
        NormalIsWellFormed(f.value);
      }
    case _ =>
  }

  lemma {:induction false} NormalizeNormal(v: Json)
    requires Normal(v)
    ensures Normalize(v) == v
    decreases v
  {
    match v
    case List(items) =>
      NormalizedItems(items);
      forall k | 0 <= k < |items|
        ensures NormalizeItems(items)[k] == items[k]
      {
        NormalizeNormal(items[k]);
      }
    case Object(fields) =>
      NormalizedFields(fields);
      forall k | 0 <= k < |fields|
        ensures NormalizeFields(fields)[k] == fields[k]
      {
        NormalizeNormal(fields[k].value);
      }
      assert NormalizeFields(fields) == fields;
      SortedKeysDiffer(fields);
      SortSorts(fields);
      SortKeepsFields(fields);
      SortedIsUnique(SortFields(fields), fields);
    case _ =>
  }

  lemma NormalizeTwice(v: Json)
    requires WellFormed(v)
    ensures Normalize(Normalize(v)) == Normalize(v)
  {
    NormalizeIsNormal(v);
    NormalizeNormal(Normalize(v));
  }

  /** Every value has exactly one text that passes the gate and means it. */
  lemma OneTextPerValue(v: Json, text: string)
    requires WellFormed(v)
    ensures Gate(text) && Same(Parse(text).value, v) <==> text == Print(v)
  {
    if text == Print(v) {
      RoundTrip(v);
      NormalizeIsNormal(v);
      NormalIsWellFormed(Normalize(v));
      NormalizeTwice(v);
      SameIsEqualNormal(Normalize(v), v);
    } else if Gate(text) {
      PrintIsInjective(Parse(text).value, v);
    }
  }
}
