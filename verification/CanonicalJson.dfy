/**
 Canonical JSON text, as `json.dumps(obj, sort_keys=True, separators=(",", ":"))` prints it
 (string escapes as in section 7 of RFC 8259, every character outside printable ASCII escaped).
 The text is ASCII, so encoding it as UTF-8 is the identity and a `string` stands for the bytes.

 Main result: two dictionaries have the same text exactly when they are equal as dictionaries,
 whatever the order in which their keys were inserted.
 */
module CanonicalJson {
  import opened Text
  import opened Sorting

  datatype Json =
    | Null
    | Bool(b: bool)
    | Num(n: int)
    | Str(s: string)
    | Arr(items: seq<Json>)
    | Obj(fields: seq<Field>)  // in insertion order

  datatype Field = Field(key: string, value: Json)

  // ----- strings -----

  function HexDigit(d: nat): (c: char)
    requires d < 16
  {
    if d < 10 then '0' + d as char else 'a' + (d - 10) as char
  }

  function Hex4(n: nat): (s: string)
    requires n < 0x10000
    ensures |s| == 4
  {
    [HexDigit(n / 16 / 16 / 16), HexDigit(n / 16 / 16 % 16), HexDigit(n / 16 % 16), HexDigit(n % 16)]
  }

  lemma HexDigitInjective(d: nat, e: nat)
    requires d < 16 && e < 16 && HexDigit(d) == HexDigit(e)
    ensures d == e
  {}

  lemma Hex4Injective(m: nat, n: nat)
    requires m < 0x10000 && n < 0x10000 && Hex4(m) == Hex4(n)
    ensures m == n
  {
    var s, t := Hex4(m), Hex4(n);
    assert s[0] == t[0] && s[1] == t[1] && s[2] == t[2] && s[3] == t[3];
    HexDigitInjective(m / 16 / 16 / 16, n / 16 / 16 / 16);
    HexDigitInjective(m / 16 / 16 % 16, n / 16 / 16 % 16);
    HexDigitInjective(m / 16 % 16, n / 16 % 16);
    HexDigitInjective(m % 16, n % 16);
  }

  function HighSurrogate(c: char): (n: nat)
    requires c as int >= 0x10000
    ensures 0xD800 <= n < 0xDC00
  {
    0xD800 + (c as int - 0x10000) / 0x400
  }

  function LowSurrogate(c: char): (n: nat)
    requires c as int >= 0x10000
    ensures 0xDC00 <= n < 0xE000
  {
    0xDC00 + (c as int - 0x10000) % 0x400
  }

  function EscapeChar(c: char): (s: string)
    ensures 1 <= |s| && s[0] != '\"'
  {
    if c == '\"' then "\\\""
    else if c == '\\' then "\\\\"
    else if c == '\n' then "\\n"
    else if c == '\r' then "\\r"
    else if c == '\t' then "\\t"
    else if c == '\U{0c}' then "\\f"
    else if c == '\U{08}' then "\\b"
    else if ' ' <= c <= '~' then [c]
    else if c as int < 0x10000 then "\\u" + Hex4(c as int)
    else "\\u" + Hex4(HighSurrogate(c)) + "\\u" + Hex4(LowSurrogate(c))
  }

  /** The escaped characters of `s`, a closing quote, and then `rest`. */
  function StringTail(s: string, rest: string): (t: string)
    ensures t != []
  {
    if s == [] then "\"" + rest else EscapeChar(s[0]) + StringTail(s[1..], rest)
  }

  predicate Printable(c: char)
  {
    ' ' <= c <= '~' && c != '\"' && c != '\\'
  }

  predicate ShortEscape(c: char)
  {
    c == '\"' || c == '\\' || c == '\n' || c == '\r' || c == '\t' || c == '\U{0c}' || c == '\U{08}'
  }

  /** The number that follows the first `\u` of an escape. */
  function FirstUnit(c: char): (n: nat)
    requires !Printable(c) && !ShortEscape(c)
    ensures n < 0x10000
  {
    if c as int < 0x10000 then c as int else HighSurrogate(c)
  }

  lemma LongEscape(c: char, x: string)
    requires !Printable(c) && !ShortEscape(c)
    ensures var t := EscapeChar(c) + x;
      && |t| >= 6 && t[0] == '\\' && t[1] == 'u' && t[2..6] == Hex4(FirstUnit(c))
      && (c as int >= 0x10000 ==> |t| >= 12 && t[8..12] == Hex4(LowSurrogate(c)))
  {}

  lemma EscapeCharPrefixFree(c: char, d: char, x: string, y: string)
    requires EscapeChar(c) + x == EscapeChar(d) + y
    ensures c == d && x == y
  {
    var t := EscapeChar(c) + x;
    assert c == d by {
      if Printable(c) || Printable(d) {
        assert t[0] == EscapeChar(c)[0] && t[0] == EscapeChar(d)[0];
      } else if ShortEscape(c) || ShortEscape(d) {
        assert t[1] == EscapeChar(c)[1] && t[1] == EscapeChar(d)[1];
      } else {
        LongEscape(c, x);
        LongEscape(d, y);
        Hex4Injective(FirstUnit(c), FirstUnit(d));
        if c as int >= 0x10000 {
          Hex4Injective(LowSurrogate(c), LowSurrogate(d));
        }
      }
    }
    assert x == t[|EscapeChar(c)|..] && y == t[|EscapeChar(d)|..];
  }

  lemma {:induction false} StringTailPrefixFree(s: string, t: string, x: string, y: string)
    requires StringTail(s, x) == StringTail(t, y)
    ensures s == t && x == y
  {
    if s == [] {
      assert StringTail(s, x)[0] == '\"';
      assert StringTail(s, x)[1..] == x && StringTail(t, y)[1..] == y;
    } else {
      assert StringTail(s, x)[0] == EscapeChar(s[0])[0];
      EscapeCharPrefixFree(s[0], t[0], StringTail(s[1..], x), StringTail(t[1..], y));
      StringTailPrefixFree(s[1..], t[1..], x, y);
      assert s == [s[0]] + s[1..] && t == [t[0]] + t[1..];
    }
  }

  // ----- values in the order given -----

  /** The text of `v` followed by `rest`. */
  function Render(v: Json, rest: string): (t: string)
    ensures t != []
    decreases v, 0
  {
    match v
    case Null => "null" + rest
    case Bool(b) => (if b then "true" else "false") + rest
    case Num(n) => Decimal(n) + rest
    case Str(s) => "\"" + StringTail(s, rest)
    case Arr(items) => "[" + ItemsOpen(items, rest)
    case Obj(fields) => "{" + FieldsOpen(fields, rest)
  }

  function ItemsOpen(items: seq<Json>, rest: string): string
    decreases items, 2
  {
    if items == [] then "]" + rest else Render(items[0], ItemsTail(items[1..], rest))
  }

  function FieldsOpen(fields: seq<Field>, rest: string): string
    decreases fields, 2
  {
    if fields == [] then "}" + rest else RenderField(fields[0], FieldsTail(fields[1..], rest))
  }

  function RenderField(f: Field, rest: string): string
    decreases f, 0
  {
    "\"" + StringTail(f.key, ":" + Render(f.value, rest))
  }

  function ItemsTail(items: seq<Json>, rest: string): (t: string)
    ensures t != [] && t[0] == (if items == [] then ']' else ',')
    decreases items, 1
  {
    if items == [] then "]" + rest else "," + Render(items[0], ItemsTail(items[1..], rest))
  }

  function FieldsTail(fields: seq<Field>, rest: string): (t: string)
    ensures t != [] && t[0] == (if fields == [] then '}' else ',')
    decreases fields, 1
  {
    if fields == [] then "}" + rest else "," + RenderField(fields[0], FieldsTail(fields[1..], rest))
  }

  /** What may follow a value inside a JSON text. */
  predicate Delimited(rest: string)
  {
    rest == [] || rest[0] in ",]}"
  }

  function DigitRun(t: string): nat
  {
    if t != [] && IsDigit(t[0]) then 1 + DigitRun(t[1..]) else 0
  }

  lemma {:induction false} DigitRunOf(p: string, x: string)
    requires (forall i :: 0 <= i < |p| ==> IsDigit(p[i])) && Delimited(x)
    ensures DigitRun(p + x) == |p|
  {
    if p == [] {
      assert p + x == x;
    } else {
      assert (p + x)[1..] == p[1..] + x;
      DigitRunOf(p[1..], x);
    }
  }

  lemma DecimalPrefixFree(m: int, n: int, x: string, y: string)
    requires Decimal(m) + x == Decimal(n) + y && Delimited(x) && Delimited(y)
    ensures m == n && x == y
  {
    var p, q := Decimal(m), Decimal(n);
    var t := p + x;
    assert t[1..] == p[1..] + x && t[1..] == q[1..] + y;
    DigitRunOf(p[1..], x);
    DigitRunOf(q[1..], y);
    assert p == t[..|p|] && q == t[..|q|];
    assert x == t[|p|..] && y == t[|q|..];
    DecimalInjective(m, n);
  }

  /** The first character of a value's text tells its kind. */
  function Kind(v: Json): nat
  {
    match v
    case Null => 0
    case Bool(b) => if b then 1 else 2
    case Num(_) => 3
    case Str(_) => 4
    case Arr(_) => 5
    case Obj(_) => 6
  }

  function KindOfHead(c: char): nat
  {
    if c == 'n' then 0 else if c == 't' then 1 else if c == 'f' then 2
    else if c == '\"' then 4 else if c == '[' then 5 else if c == '{' then 6
    else if c == ']' || c == '}' then 7 else 3
  }

  lemma RenderHead(v: Json, rest: string)
    ensures KindOfHead(Render(v, rest)[0]) == Kind(v)
  {
    if v.Num? {
      assert Render(v, rest)[0] == Decimal(v.n)[0];
    }
  }

  lemma TailOf(c: char, x: string, d: char, y: string)
    requires [c] + x == [d] + y
    ensures c == d && x == y
  {
    assert ([c] + x)[1..] == x && ([d] + y)[1..] == y;
    assert ([c] + x)[0] == c && ([d] + y)[0] == d;
  }

  lemma {:induction false} RenderPrefixFree(v: Json, w: Json, x: string, y: string)
    requires Render(v, x) == Render(w, y) && Delimited(x) && Delimited(y)
    ensures v == w && x == y
    decreases v, 0
  {
    RenderHead(v, x);
    RenderHead(w, y);
    match v {
      case Null =>
        assert Render(v, x)[4..] == x && Render(w, y)[4..] == y;
      case Bool(b) =>
        var k := if b then 4 else 5;
        assert Render(v, x)[k..] == x && Render(w, y)[k..] == y;
      case Num(n) =>
        DecimalPrefixFree(n, w.n, x, y);
      case Str(s) =>
        TailOf('\"', StringTail(s, x), '\"', StringTail(w.s, y));
        StringTailPrefixFree(s, w.s, x, y);
      case Arr(items) =>
        TailOf('[', ItemsOpen(items, x), '[', ItemsOpen(w.items, y));
        ItemsPrefixFree(items, w.items, x, y);
      case Obj(fields) =>
        TailOf('{', FieldsOpen(fields, x), '{', FieldsOpen(w.fields, y));
        FieldsPrefixFree(fields, w.fields, x, y);
    }
  }

  lemma {:induction false} ItemsPrefixFree(xs: seq<Json>, ys: seq<Json>, x: string, y: string)
    requires ItemsOpen(xs, x) == ItemsOpen(ys, y) && Delimited(x) && Delimited(y)
    ensures xs == ys && x == y
    decreases xs, 2
  {
    if xs != [] {
      RenderHead(xs[0], ItemsTail(xs[1..], x));
    }
    if ys != [] {
      RenderHead(ys[0], ItemsTail(ys[1..], y));
    }
    if xs == [] {
      TailOf(']', x, ']', y);
    } else {
      RenderPrefixFree(xs[0], ys[0], ItemsTail(xs[1..], x), ItemsTail(ys[1..], y));
      ItemsTailPrefixFree(xs[1..], ys[1..], x, y);
      assert xs == [xs[0]] + xs[1..] && ys == [ys[0]] + ys[1..];
    }
  }

  lemma {:induction false} ItemsTailPrefixFree(xs: seq<Json>, ys: seq<Json>, x: string, y: string)
    requires ItemsTail(xs, x) == ItemsTail(ys, y) && Delimited(x) && Delimited(y)
    ensures xs == ys && x == y
    decreases xs, 1
  {
    if xs == [] {
      TailOf(']', x, ']', y);
    } else {
      TailOf(',', Render(xs[0], ItemsTail(xs[1..], x)), ',', Render(ys[0], ItemsTail(ys[1..], y)));
      RenderPrefixFree(xs[0], ys[0], ItemsTail(xs[1..], x), ItemsTail(ys[1..], y));
      ItemsTailPrefixFree(xs[1..], ys[1..], x, y);
      assert xs == [xs[0]] + xs[1..] && ys == [ys[0]] + ys[1..];
    }
  }

  lemma {:induction false} FieldPrefixFree(f: Field, g: Field, x: string, y: string)
    requires RenderField(f, x) == RenderField(g, y) && Delimited(x) && Delimited(y)
    ensures f == g && x == y
    decreases f, 0
  {
    var p, q := Render(f.value, x), Render(g.value, y);
    TailOf('\"', StringTail(f.key, ":" + p), '\"', StringTail(g.key, ":" + q));
    StringTailPrefixFree(f.key, g.key, ":" + p, ":" + q);
    TailOf(':', p, ':', q);
    RenderPrefixFree(f.value, g.value, x, y);
  }

  lemma {:induction false} FieldsPrefixFree(fs: seq<Field>, gs: seq<Field>, x: string, y: string)
    requires FieldsOpen(fs, x) == FieldsOpen(gs, y) && Delimited(x) && Delimited(y)
    ensures fs == gs && x == y
    decreases fs, 2
  {
    assert FieldsOpen(fs, x)[0] == (if fs == [] then '}' else '\"');
    assert FieldsOpen(gs, y)[0] == (if gs == [] then '}' else '\"');
    if fs == [] {
      TailOf('}', x, '}', y);
    } else {
      FieldPrefixFree(fs[0], gs[0], FieldsTail(fs[1..], x), FieldsTail(gs[1..], y));
      FieldsTailPrefixFree(fs[1..], gs[1..], x, y);
      assert fs == [fs[0]] + fs[1..] && gs == [gs[0]] + gs[1..];
    }
  }

  lemma {:induction false} FieldsTailPrefixFree(fs: seq<Field>, gs: seq<Field>, x: string, y: string)
    requires FieldsTail(fs, x) == FieldsTail(gs, y) && Delimited(x) && Delimited(y)
    ensures fs == gs && x == y
    decreases fs, 1
  {
    if fs == [] {
      TailOf('}', x, '}', y);
    } else {
      TailOf(',', RenderField(fs[0], FieldsTail(fs[1..], x)), ',', RenderField(gs[0], FieldsTail(gs[1..], y)));
      FieldPrefixFree(fs[0], gs[0], FieldsTail(fs[1..], x), FieldsTail(gs[1..], y));
      FieldsTailPrefixFree(fs[1..], gs[1..], x, y);
      assert fs == [fs[0]] + fs[1..] && gs == [gs[0]] + gs[1..];
    }
  }

  // ----- sorted keys -----

  predicate FieldLe(f: Field, g: Field)
  {
    StrLe(f.key, g.key)
  }

  lemma FieldLeOrders()
    ensures TotalPreorder(FieldLe)
  {
    forall a, b ensures FieldLe(a, b) || FieldLe(b, a) {
      StrLeTotal(a.key, b.key);
    }
    forall a, b, c | FieldLe(a, b) && FieldLe(b, c) ensures FieldLe(a, c) {
      StrLeTransitive(a.key, b.key, c.key);
    }
  }

  /** The same value with the keys of every dictionary sorted. */
  function Canon(v: Json): Json
    decreases v, 0
  {
    match v
    case Arr(items) => Arr(CanonItems(items))
    case Obj(fields) => Obj(SortBy(CanonFields(fields), FieldLe))
    case _ => v
  }

  function CanonItems(items: seq<Json>): (r: seq<Json>)
    ensures |r| == |items| && forall i :: 0 <= i < |r| ==> r[i] == Canon(items[i])
    decreases items, 1
  {
    if items == [] then [] else [Canon(items[0])] + CanonItems(items[1..])
  }

  function CanonField(f: Field): Field
    decreases f, 0
  {
    Field(f.key, Canon(f.value))
  }

  function CanonFields(fields: seq<Field>): (r: seq<Field>)
    ensures |r| == |fields| && forall i :: 0 <= i < |r| ==> r[i] == CanonField(fields[i])
    decreases fields, 1
  {
    if fields == [] then [] else [CanonField(fields[0])] + CanonFields(fields[1..])
  }

  function Encode(v: Json): string
  {
    Render(Canon(v), "")
  }

  // ----- equality of dictionaries -----

  predicate DistinctKeys(fields: seq<Field>)
  {
    forall i, j :: 0 <= i < j < |fields| ==> fields[i].key != fields[j].key
  }

  /** Every dictionary in the value has each key once, as Python guarantees. */
  predicate WellFormed(v: Json)
  {
    match v
    case Arr(items) => forall i :: 0 <= i < |items| ==> WellFormed(items[i])
    case Obj(fields) => DistinctKeys(fields) && forall i :: 0 <= i < |fields| ==> WellFormed(fields[i].value)
    case _ => true
  }

  /** Equal JSON values: dictionaries compare key by key, lists element by element. Unlike Python's `==`
      this tells `true` from 1, as the text does. */
  predicate Same(v: Json, w: Json)
    decreases v, 0
  {
    match v
    case Arr(xs) => w.Arr? && |xs| == |w.items| && forall i :: 0 <= i < |xs| ==> Same(xs[i], w.items[i])
    case Obj(fs) => w.Obj? && |fs| == |w.fields| && forall i :: 0 <= i < |fs| ==> Matched(fs, w.fields, i)
    case _ => v == w
  }

  /** Field `i` of `fs` has a field of `gs` with its key and the same value. */
  predicate Matched(fs: seq<Field>, gs: seq<Field>, i: nat)
    requires i < |fs|
    decreases fs, 1
  {
    exists j :: 0 <= j < |gs| && gs[j].key == fs[i].key && Same(fs[i].value, gs[j].value)
  }

  lemma CanonFieldsMatch(fs: seq<Field>, gs: seq<Field>)
    requires SortBy(CanonFields(fs), FieldLe) == SortBy(CanonFields(gs), FieldLe)
    ensures |fs| == |gs| && multiset(CanonFields(fs)) == multiset(CanonFields(gs))
  {
    SortPermutes(CanonFields(fs), FieldLe);
    SortPermutes(CanonFields(gs), FieldLe);
  }

  lemma CanonFieldFound(fs: seq<Field>, gs: seq<Field>, i: nat) returns (j: nat)
    requires i < |fs| && multiset(CanonFields(fs)) == multiset(CanonFields(gs))
    ensures j < |gs| && gs[j].key == fs[i].key && Canon(gs[j].value) == Canon(fs[i].value)
  {
    var cs, ds := CanonFields(fs), CanonFields(gs);
    SameElements(cs, ds);
    assert cs[i] in ds;
    j :| 0 <= j < |ds| && ds[j] == cs[i];
  }

  lemma {:induction false} CanonEqualIsSame(v: Json, w: Json)
    requires Canon(v) == Canon(w)
    ensures Same(v, w)
    decreases v, 0
  {
    match v {
      case Arr(xs) =>
        assert CanonItems(xs) == CanonItems(w.items);
        forall i | 0 <= i < |xs| ensures Same(xs[i], w.items[i]) {
          assert CanonItems(xs)[i] == CanonItems(w.items)[i];
          CanonEqualIsSame(xs[i], w.items[i]);
        }
      case Obj(fs) =>
        CanonFieldsMatch(fs, w.fields);
        forall i | 0 <= i < |fs| ensures Matched(fs, w.fields, i) {
          CanonEqualMatches(fs, w.fields, i);
        }
      case _ =>
    }
  }

  lemma {:induction false} CanonEqualMatches(fs: seq<Field>, gs: seq<Field>, i: nat)
    requires i < |fs| && multiset(CanonFields(fs)) == multiset(CanonFields(gs))
    ensures Matched(fs, gs, i)
    decreases fs, 1
  {
    var j := CanonFieldFound(fs, gs, i);
    CanonEqualIsSame(fs[i].value, gs[j].value);
  }

  /** A duplicate-free sequence inside another of the same length has the same elements. */
  lemma DistinctInside<T>(xs: seq<T>, ys: seq<T>)
    requires |xs| == |ys| && forall x :: x in xs ==> x in ys
    requires forall i, j :: 0 <= i < j < |xs| ==> xs[i] != xs[j]
    ensures multiset(xs) == multiset(ys)
  {
    DistinctCounts(xs);
    var a, b := multiset(xs), multiset(ys);
    forall x ensures a[x] <= b[x] {
      assert x in a ==> x in xs;
      assert x in xs ==> x in ys && x in b;
    }
    assert a <= b;
    assert |b - a| == 0;
    assert b == a + (b - a);
  }

  lemma {:induction false} DistinctCounts<T>(xs: seq<T>)
    requires forall i, j :: 0 <= i < j < |xs| ==> xs[i] != xs[j]
    ensures forall x :: multiset(xs)[x] <= 1
  {
    if xs != [] {
      DistinctCounts(xs[1..]);
      assert xs == [xs[0]] + xs[1..];
      assert xs[0] !in xs[1..];
      assert multiset(xs) == multiset{xs[0]} + multiset(xs[1..]);
    }
  }

  lemma {:induction false} SameIsCanonEqual(v: Json, w: Json)
    requires Same(v, w) && WellFormed(v) && WellFormed(w)
    ensures Canon(v) == Canon(w)
  {
    match v {
      case Arr(xs) =>
        forall i | 0 <= i < |xs| ensures Canon(xs[i]) == Canon(w.items[i]) {
          SameIsCanonEqual(xs[i], w.items[i]);
        }
        assert CanonItems(xs) == CanonItems(w.items);
      case Obj(fs) =>
        var gs := w.fields;
        var cs, ds := CanonFields(fs), CanonFields(gs);
        forall i | 0 <= i < |fs| ensures cs[i] in ds {
          assert Matched(fs, gs, i);
          var j :| 0 <= j < |gs| && gs[j].key == fs[i].key && Same(fs[i].value, gs[j].value);
          SameIsCanonEqual(fs[i].value, gs[j].value);
          assert ds[j] == cs[i];
        }
        DistinctInside(cs, ds);
        SortCanonFields(fs, gs);
      case _ =>
    }
  }

  lemma SortCanonFields(fs: seq<Field>, gs: seq<Field>)
    requires DistinctKeys(fs) && multiset(CanonFields(fs)) == multiset(CanonFields(gs))
    ensures SortBy(CanonFields(fs), FieldLe) == SortBy(CanonFields(gs), FieldLe)
  {
    FieldLeOrders();
    var cs := CanonFields(fs);
    forall a, b | a in cs && b in cs && FieldLe(a, b) && FieldLe(b, a) ensures a == b {
      StrLeAntisymmetric(a.key, b.key);
    }
    SortIgnoresOrder(cs, CanonFields(gs), FieldLe);
  }

  /** Canonical text identifies a value up to the insertion order of its keys, and nothing less. */
  lemma EncodeIdentifies(v: Json, w: Json)
    requires WellFormed(v) && WellFormed(w)
    ensures Encode(v) == Encode(w) <==> Same(v, w)
  {
    if Encode(v) == Encode(w) {
      EncodeInjective(v, w);
    }
    if Same(v, w) {
      SameIsCanonEqual(v, w);
    }
  }

  lemma EncodeInjective(v: Json, w: Json)
    requires Encode(v) == Encode(w)
    ensures Same(v, w)
  {
    RenderPrefixFree(Canon(v), Canon(w), "", "");
    CanonEqualIsSame(v, w);
  }

  /** Building the same dictionary in another order gives the same text. */
  lemma EncodeIgnoresInsertionOrder(fs: seq<Field>, gs: seq<Field>)
    requires DistinctKeys(fs) && multiset(fs) == multiset(gs)
    ensures Encode(Obj(fs)) == Encode(Obj(gs))
  {
    CanonFieldsPermute(fs, gs);
    SortCanonFields(fs, gs);
  }

  lemma CanonFieldsRemove(gs: seq<Field>, j: nat)
    requires j < |gs|
    ensures CanonFields(RemoveAt(gs, j)) == RemoveAt(CanonFields(gs), j)
  {
    MapRemoveAt(CanonField, gs, CanonFields(gs), CanonFields(RemoveAt(gs, j)), j);
  }

  lemma {:induction false} CanonFieldsPermute(fs: seq<Field>, gs: seq<Field>)
    requires multiset(fs) == multiset(gs)
    ensures multiset(CanonFields(fs)) == multiset(CanonFields(gs))
  {
    SameElements(fs, gs);
    if fs != [] {
      assert fs[0] in gs;
      var j :| 0 <= j < |gs| && gs[j] == fs[0];
      RemoveAtElements(fs, 0);
      RemoveAtElements(gs, j);
      CanonFieldsPermute(RemoveAt(fs, 0), RemoveAt(gs, j));
      CanonFieldsRemove(fs, 0);
      CanonFieldsRemove(gs, j);
      RemoveAtElements(CanonFields(fs), 0);
      RemoveAtElements(CanonFields(gs), j);
    }
  }
}
