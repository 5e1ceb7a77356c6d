/**
JSON values as `serde_json` holds them, and its compact printer.

An object is a sequence of entries with distinct keys.  A number is an integer
in the range of `u64`/`i64`, or a float given by its printed text.
*/
module Json {

  datatype Number = Int(value: int) | Float(text: string)

  datatype Entry = Entry(key: string, value: Json)

  datatype Json =
    | Null
    | Bool(b: bool)
    | Num(n: Number)
    | Str(s: string)
    | Array(items: seq<Json>)
    | Object(entries: seq<Entry>)

  predicate NumberChar(c: char)
  {
    '0' <= c <= '9' || c == '-' || c == '+' || c == '.' || c == 'e' || c == 'E'
  }

  predicate ValidNumber(n: Number)
  {
    match n
    case Int(v) => -0x8000_0000_0000_0000 <= v < 0x1_0000_0000_0000_0000
    case Float(text) =>
      && text != [] && ('0' <= text[0] <= '9' || text[0] == '-')
      && (forall i :: 0 <= i < |text| ==> NumberChar(text[i]))
      && (exists i :: 0 <= i < |text| && (text[i] == '.' || text[i] == 'e'))
  }

  predicate DistinctKeys(entries: seq<Entry>)
  {
    forall i, j :: 0 <= i < j < |entries| ==> entries[i].key != entries[j].key
  }

  predicate Valid(j: Json)
  {
    match j
    case Num(n) => ValidNumber(n)
    case Array(items) => forall i :: 0 <= i < |items| ==> Valid(items[i])
    case Object(entries) =>
      && DistinctKeys(entries)
      && forall i :: 0 <= i < |entries| ==> Valid(entries[i].value)
    case _ => true
  }

  // ----- Scalars -----

  function BoolText(b: bool): string
  {
    if b then "true" else "false"
  }

  function Digit(d: nat): char
    requires d < 10
  {
    ('0' as int + d) as char
  }

  function Decimal(n: nat): string
  {
    if n < 10 then [Digit(n)] else Decimal(n / 10) + [Digit(n % 10)]
  }

  function NumberText(n: Number): string
  {
    match n
    case Int(v) => if v < 0 then "-" + Decimal(-v) else Decimal(v)
    case Float(text) => text
  }

  lemma {:induction false} DecimalShape(n: nat)
    ensures Decimal(n) != []
    ensures forall i :: 0 <= i < |Decimal(n)| ==> '0' <= Decimal(n)[i] <= '9'
  {
    if n >= 10 { DecimalShape(n / 10); }
  }

  lemma {:induction false} DecimalInjective(m: nat, n: nat)
    requires Decimal(m) == Decimal(n)
    ensures m == n
  {
    DecimalShape(m / 10);
    DecimalShape(n / 10);
    var a, b := Decimal(m), Decimal(n);
    assert (m >= 10 <==> |a| > 1) && (n >= 10 <==> |b| > 1);
    if m >= 10 {
      assert a[|a| - 1] == Digit(m % 10) && b[|b| - 1] == Digit(n % 10);
      assert a[..|a| - 1] == Decimal(m / 10) && b[..|b| - 1] == Decimal(n / 10);
      DecimalInjective(m / 10, n / 10);
    }
  }

  lemma NumberTextShape(n: Number)
    requires ValidNumber(n)
    ensures var t := NumberText(n);
      && t != [] && ('0' <= t[0] <= '9' || t[0] == '-')
      && (forall i :: 0 <= i < |t| ==> NumberChar(t[i]))
      && (n.Int? ==> forall i :: 0 <= i < |t| ==> t[i] != '.' && t[i] != 'e')
  {
    if n.Int? { DecimalShape(if n.value < 0 then -n.value else n.value); }
  }

  lemma NumberTextInjective(m: Number, n: Number)
    requires ValidNumber(m) && ValidNumber(n) && NumberText(m) == NumberText(n)
    ensures m == n
  {
    NumberTextShape(m);
    NumberTextShape(n);
    if m.Int? && n.Int? {
      var a, b := if m.value < 0 then -m.value else m.value, if n.value < 0 then -n.value else n.value;
      DecimalShape(a);
      DecimalShape(b);
      assert m.value < 0 ==> NumberText(m)[1..] == Decimal(a);
      assert n.value < 0 ==> NumberText(n)[1..] == Decimal(b);
      DecimalInjective(a, b);
    }
  }

  // ----- Strings (section 7 of RFC 8259) -----

  function HexDigit(d: nat): char
    requires d < 16
  {
    if d < 10 then ('0' as int + d) as char else ('a' as int + (d - 10)) as char
  }

  function Escape(c: char): string
  {
    if c == '\"' then "\\\""
    else if c == '\\' then "\\\\"
    else if c == '\n' then "\\n"
    else if c == '\r' then "\\r"
    else if c == '\t' then "\\t"
    else if c as int == 8 then "\\b"
    else if c as int == 12 then "\\f"
    else if c as int < 32 then ['\\', 'u', '0', '0', HexDigit(c as int / 16), HexDigit(c as int % 16)]
    else [c]
  }

  // The printers below take the text that follows: `PrintOnto(j, rest)` is the
  // compact text of `j` with `rest` after it, as a writer appends it.

  function StringOnto(s: string, rest: string): string
  {
    if s == [] then ['\"'] + rest else Escape(s[0]) + StringOnto(s[1..], rest)
  }

  function PrintOnto(j: Json, rest: string): string
    decreases j, 1
  {
    match j
    case Null => "null" + rest
    case Bool(b) => BoolText(b) + rest
    case Num(n) => NumberText(n) + rest
    case Str(s) => ['\"'] + StringOnto(s, rest)
    case Array(items) => ['['] + ItemsOnto(items, true, rest)
    case Object(entries) => ['{'] + EntriesOnto(entries, true, rest)
  }

  function ItemsOnto(items: seq<Json>, first: bool, rest: string): string
    decreases items, 0
  {
    if items == [] then [']'] + rest
    else
      var tail := PrintOnto(items[0], ItemsOnto(items[1..], false, rest));
      if first then tail else [','] + tail
  }

  function EntriesOnto(entries: seq<Entry>, first: bool, rest: string): string
    decreases entries, 0
  {
    if entries == [] then ['}'] + rest
    else
      var tail := ['\"'] + StringOnto(entries[0].key, [':'] + PrintOnto(entries[0].value, EntriesOnto(entries[1..], false, rest)));
      if first then tail else [','] + tail
  }

  /** `serde_json::to_string`. */
  function Print(j: Json): string
  {
    PrintOnto(j, [])
  }

  // ----- Unique reading -----

  lemma ConsInjective(c: char, d: char, x: string, y: string)
    requires [c] + x == [d] + y
    ensures c == d && x == y
  {
    var l, r := [c] + x, [d] + y;
    assert l[0] == r[0] && l[1..] == x && r[1..] == y;
  }

  /** Escapes form a prefix code. */
  lemma EscapePrefixFree(c: char, d: char, x: string, y: string)
    requires Escape(c) + x == Escape(d) + y
    ensures c == d && x == y
  {
    var l, r := Escape(c) + x, Escape(d) + y;
    assert l[0] == r[0] && l[0] == Escape(c)[0] && r[0] == Escape(d)[0];
    if |Escape(c)| > 1 && |Escape(d)| > 1 {
      assert l[1] == Escape(c)[1] && r[1] == Escape(d)[1];
      if |Escape(c)| == 6 && |Escape(d)| == 6 {
        assert l[4] == Escape(c)[4] && r[4] == Escape(d)[4];
        assert l[5] == Escape(c)[5] && r[5] == Escape(d)[5];
        assert c as int / 16 == d as int / 16 && c as int % 16 == d as int % 16;
      }
    }
    assert l[|Escape(c)|..] == x && r[|Escape(d)|..] == y;
  }

  lemma StringHead(s: string, rest: string)
    ensures StringOnto(s, rest) != []
    ensures StringOnto(s, rest)[0] == '\"' <==> s == []
  {
    if s != [] { assert StringOnto(s, rest)[0] == Escape(s[0])[0]; }
  }

  lemma {:induction false} StringUnique(s: string, t: string, u: string, v: string)
    requires StringOnto(s, u) == StringOnto(t, v)
    ensures s == t && u == v
  {
    StringHead(s, u);
    StringHead(t, v);
    if s == [] {
      ConsInjective('\"', '\"', u, v);
    } else {
      EscapePrefixFree(s[0], t[0], StringOnto(s[1..], u), StringOnto(t[1..], v));
      StringUnique(s[1..], t[1..], u, v);
      assert s == [s[0]] + s[1..] && t == [t[0]] + t[1..];
    }
  }

  /** Text that can follow a printed value: nothing, or a character no number contains. */
  predicate Follows(s: string)
  {
    s == [] || !NumberChar(s[0])
  }

  lemma {:induction false} SpanUnique(a: string, b: string, u: string, v: string)
    requires a + u == b + v && Follows(u) && Follows(v)
    requires forall i :: 0 <= i < |a| ==> NumberChar(a[i])
    requires forall i :: 0 <= i < |b| ==> NumberChar(b[i])
    ensures a == b && u == v
  {
    var l, r := a + u, b + v;
    assert (l != [] && NumberChar(l[0])) == (a != []);
    assert (r != [] && NumberChar(r[0])) == (b != []);
    if a == [] {
      assert l == u && r == v;
    } else {
      assert l[1..] == a[1..] + u && r[1..] == b[1..] + v;
      SpanUnique(a[1..], b[1..], u, v);
      assert a == [a[0]] + a[1..] && b == [b[0]] + b[1..];
    }
  }

  /** The first character of a printed value tells its constructor. */
  lemma PrintHead(j: Json, rest: string)
    requires Valid(j)
    ensures PrintOnto(j, rest) != []
    ensures var c := PrintOnto(j, rest)[0];
      && (j.Null? <==> c == 'n') && (j.Str? <==> c == '\"')
      && (j.Array? <==> c == '[') && (j.Object? <==> c == '{')
      && (j.Num? <==> ('0' <= c <= '9' || c == '-'))
      && (j.Bool? <==> c == 't' || c == 'f')
      && (j.Bool? && j.b <==> c == 't')
      && c != ']' && c != '}' && c != ','
  {
    if j.Num? { NumberTextShape(j.n); }
  }

  /** Printed values can be read back off the front of any text in only one way. */
  lemma {:induction false} PrintUnique(a: Json, b: Json, u: string, v: string)
    requires Valid(a) && Valid(b) && Follows(u) && Follows(v)
    requires PrintOnto(a, u) == PrintOnto(b, v)
    ensures a == b && u == v
    decreases a, 1
  {
    var l, r := PrintOnto(a, u), PrintOnto(b, v);
    PrintHead(a, u);
    PrintHead(b, v);
    match a
    case Null =>
      assert l[4..] == u && r[4..] == v;
    case Bool(x) =>
      assert l[|BoolText(x)|..] == u && r[|BoolText(x)|..] == v;
    case Num(n) =>
      NumberTextShape(n);
      NumberTextShape(b.n);
      SpanUnique(NumberText(n), NumberText(b.n), u, v);
      NumberTextInjective(n, b.n);
    case Str(s) =>
      ConsInjective('\"', '\"', StringOnto(s, u), StringOnto(b.s, v));
      StringUnique(s, b.s, u, v);
    case Array(xs) =>
      ConsInjective('[', '[', ItemsOnto(xs, true, u), ItemsOnto(b.items, true, v));
      ItemsUnique(xs, b.items, true, u, v);
    case Object(es) =>
      ConsInjective('{', '{', EntriesOnto(es, true, u), EntriesOnto(b.entries, true, v));
      EntriesUnique(es, b.entries, true, u, v);
  }

  lemma ItemsHead(xs: seq<Json>, first: bool, rest: string)
    requires forall i :: 0 <= i < |xs| ==> Valid(xs[i])
    ensures ItemsOnto(xs, first, rest) != []
    ensures ItemsOnto(xs, first, rest)[0] == ']' <==> xs == []
    ensures !first ==> Follows(ItemsOnto(xs, first, rest))
  {
    if xs != [] { PrintHead(xs[0], ItemsOnto(xs[1..], false, rest)); }
  }

  lemma {:induction false} ItemsUnique(xs: seq<Json>, ys: seq<Json>, first: bool, u: string, v: string)
    requires forall i :: 0 <= i < |xs| ==> Valid(xs[i])
    requires forall i :: 0 <= i < |ys| ==> Valid(ys[i])
    requires ItemsOnto(xs, first, u) == ItemsOnto(ys, first, v)
    ensures xs == ys && u == v
    decreases xs, 0
  {
    ItemsHead(xs, first, u);
    ItemsHead(ys, first, v);
    if xs == [] {
      ConsInjective(']', ']', u, v);
    } else {
      var x, y := ItemsOnto(xs[1..], false, u), ItemsOnto(ys[1..], false, v);
      if !first {
        ConsInjective(',', ',', PrintOnto(xs[0], x), PrintOnto(ys[0], y));
      }
      ItemsHead(xs[1..], false, u);
      ItemsHead(ys[1..], false, v);
      PrintUnique(xs[0], ys[0], x, y);
      ItemsUnique(xs[1..], ys[1..], false, u, v);
      assert xs == [xs[0]] + xs[1..] && ys == [ys[0]] + ys[1..];
    }
  }

  lemma EntriesHead(es: seq<Entry>, first: bool, rest: string)
    ensures EntriesOnto(es, first, rest) != []
    ensures EntriesOnto(es, first, rest)[0] == '}' <==> es == []
    ensures Follows(EntriesOnto(es, first, rest))
  {
  }

  lemma {:induction false} EntriesUnique(ds: seq<Entry>, es: seq<Entry>, first: bool, u: string, v: string)
    requires forall i :: 0 <= i < |ds| ==> Valid(ds[i].value)
    requires forall i :: 0 <= i < |es| ==> Valid(es[i].value)
    requires EntriesOnto(ds, first, u) == EntriesOnto(es, first, v)
    ensures ds == es && u == v
    decreases ds, 0
  {
    EntriesHead(ds, first, u);
    EntriesHead(es, first, v);
    if ds == [] {
      ConsInjective('}', '}', u, v);
    } else {
      var x, y := EntriesOnto(ds[1..], false, u), EntriesOnto(es[1..], false, v);
      var x', y' := [':'] + PrintOnto(ds[0].value, x), [':'] + PrintOnto(es[0].value, y);
      if !first {
        ConsInjective(',', ',', ['\"'] + StringOnto(ds[0].key, x'), ['\"'] + StringOnto(es[0].key, y'));
      }
      ConsInjective('\"', '\"', StringOnto(ds[0].key, x'), StringOnto(es[0].key, y'));
      StringUnique(ds[0].key, es[0].key, x', y');
      ConsInjective(':', ':', PrintOnto(ds[0].value, x), PrintOnto(es[0].value, y));
      EntriesHead(ds[1..], false, u);
      EntriesHead(es[1..], false, v);
      PrintUnique(ds[0].value, es[0].value, x, y);
      EntriesUnique(ds[1..], es[1..], false, u, v);
      assert ds == [ds[0]] + ds[1..] && es == [es[0]] + es[1..];
    }
  }

  /** The compact printer never prints two different values alike. */
  lemma PrintInjective(a: Json, b: Json)
    requires Valid(a) && Valid(b) && Print(a) == Print(b)
    ensures a == b
  {
    PrintUnique(a, b, [], []);
  }
}
