/** The compact text of a JSON value in direct style, what its escapes and digits stand for, and the printer against it. */
module JsonText {
  import opened Common
  import opened Json

  // ----- Digits and escapes mean what they should -----

  function Value(digits: string): nat
    requires forall i :: 0 <= i < |digits| ==> '0' <= digits[i] <= '9'
  {
    if digits == [] then 0 else 10 * Value(digits[..|digits| - 1]) + (digits[|digits| - 1] as int - '0' as int)
  }

  lemma {:induction false} DecimalReads(n: nat)
    ensures forall i :: 0 <= i < |Decimal(n)| ==> '0' <= Decimal(n)[i] <= '9'
    ensures Value(Decimal(n)) == n
  {
    DecimalShape(n);
    if n >= 10 {
      DecimalReads(n / 10);
      assert Decimal(n)[..|Decimal(n)| - 1] == Decimal(n / 10);
    } else {
      assert [Digit(n)][..0] == [];
    }
  }

  function HexValue(c: char): nat
  {
    if '0' <= c <= '9' then c as int - '0' as int
    else if 'a' <= c <= 'f' then c as int - 'a' as int + 10
    else if 'A' <= c <= 'F' then c as int - 'A' as int + 10
    else 0
  }

  /** The character an escape sequence stands for (section 7 of RFC 8259). */
  function Unescape(e: string): int
  {
    if |e| == 1 then e[0] as int
    else if |e| == 2 && e[0] == '\\' then
      match e[1]
      case 'n' => 10
      case 'r' => 13
      case 't' => 9
      case 'b' => 8
      case 'f' => 12
      case c => c as int
    else if |e| == 6 && e[0] == '\\' && e[1] == 'u' then
      4096 * HexValue(e[2]) + 256 * HexValue(e[3]) + 16 * HexValue(e[4]) + HexValue(e[5])
    else -1
  }

  lemma EscapeDecodes(c: char)
    ensures Unescape(Escape(c)) == c as int
    ensures Escape(c) == [c] <==> c != '\"' && c != '\\' && c as int >= 32
  {
  }

  // ----- The text -----

  function Escaped(s: string): string
  {
    if s == [] then [] else Escape(s[0]) + Escaped(s[1..])
  }

  function Quote(s: string): string
  {
    "\"" + Escaped(s) + "\""
  }

  function Joined(parts: seq<string>): string
  {
    if parts == [] then [] else if |parts| == 1 then parts[0] else parts[0] + "," + Joined(parts[1..])
  }

  function Text(j: Json): string
    decreases j, 1
  {
    match j
    case Null => "null"
    case Bool(b) => if b then "true" else "false"
    case Num(Int(v)) => if v < 0 then "-" + Decimal(-v) else Decimal(v)
    case Num(Float(text)) => text
    case Str(s) => Quote(s)
    case Array(items) => "[" + Joined(Texts(items)) + "]"
    case Object(entries) => "{" + Joined(Fields(entries)) + "}"
  }

  function Texts(items: seq<Json>): (r: seq<string>)
    ensures |r| == |items|
    decreases items, 0
  {
    if items == [] then [] else [Text(items[0])] + Texts(items[1..])
  }

  function Fields(entries: seq<Entry>): (r: seq<string>)
    ensures |r| == |entries|
    decreases entries, 0
  {
    if entries == [] then [] else [Quote(entries[0].key) + ":" + Text(entries[0].value)] + Fields(entries[1..])
  }

  // ----- The printer prints it -----

  lemma {:induction false} StringPrints(s: string, rest: string)
    ensures StringOnto(s, rest) == Escaped(s) + "\"" + rest
  {
    if s == [] {
      NothingBefore("\"");
    } else {
      StringPrints(s[1..], rest);
      Regroup(Escape(s[0]), Escaped(s[1..]), "\"");
      Regroup(Escape(s[0]), Escaped(s[1..]) + "\"", rest);
    }
  }

  lemma QuotePrints(s: string, rest: string)
    ensures ['\"'] + StringOnto(s, rest) == Quote(s) + rest
  {
    StringPrints(s, rest);
    Regroup("\"", Escaped(s), "\"");
    Regroup("\"", Escaped(s) + "\"", rest);
  }

  /** What follows an opening bracket, or a comma-free start, up to the closing bracket. */
  function Rest(parts: seq<string>, first: bool, close: string): string
  {
    (if parts == [] || first then "" else ",") + Joined(parts) + close
  }

  lemma RestCons(part: string, parts: seq<string>, first: bool, close: string, rest: string)
    ensures Rest([part] + parts, first, close) + rest
      == (if first then [] else [',']) + (part + (Rest(parts, false, close) + rest))
  {
    var all := [part] + parts;
    assert all[1..] == parts;
    if parts == [] {
      assert Joined(all) == part;
      NothingBefore(close);
      Regroup(part, close, rest);
    } else {
      assert Joined(all) == part + "," + Joined(parts);
      Flat(part, Joined(parts), close, rest);
    }
    var comma := if first then [] else [','];
    Regroup(comma, Joined(all), close);
    Regroup(comma, Joined(all) + close, rest);
  }

  lemma Flat(part: string, joined: string, close: string, rest: string)
    ensures part + "," + joined + close + rest == part + ("," + joined + close + rest)
  {
    Regroup(part, ",", joined);
    Regroup(part, "," + joined, close);
    Regroup(part, "," + joined + close, rest);
  }

  lemma {:induction false} PrintOntoText(j: Json, rest: string)
    ensures PrintOnto(j, rest) == Text(j) + rest
    decreases j, 1
  {
    match j
    case Str(s) => QuotePrints(s, rest);
    case Array(items) =>
      ItemsPrint(items, true, rest);
      Bracket("[", Joined(Texts(items)), "]", rest);
    case Object(entries) =>
      EntriesPrint(entries, true, rest);
      Bracket("{", Joined(Fields(entries)), "}", rest);
    case _ =>
  }

  lemma Bracket(open: string, middle: string, close: string, rest: string)
    ensures open + ("" + middle + close + rest) == open + middle + close + rest
  {
    NothingBefore(middle);
    Regroup(open, middle, close);
    Regroup(open, middle + close, rest);
  }

  lemma {:induction false} ItemsPrint(items: seq<Json>, first: bool, rest: string)
    ensures ItemsOnto(items, first, rest) == Rest(Texts(items), first, "]") + rest
    decreases items, 0
  {
    if items == [] {
      NothingBefore("]");
    } else {
      var tail := ItemsOnto(items[1..], false, rest);
      ItemsPrint(items[1..], false, rest);
      PrintOntoText(items[0], tail);
      RestCons(Text(items[0]), Texts(items[1..]), first, "]", rest);
      NothingBefore(PrintOnto(items[0], tail));
    }
  }

  lemma {:induction false} EntriesPrint(entries: seq<Entry>, first: bool, rest: string)
    ensures EntriesOnto(entries, first, rest) == Rest(Fields(entries), first, "}") + rest
    decreases entries, 0
  {
    if entries == [] {
      NothingBefore("}");
    } else {
      var e, tail := entries[0], EntriesOnto(entries[1..], false, rest);
      EntriesPrint(entries[1..], false, rest);
      PrintOntoText(e.value, tail);
      QuotePrints(e.key, [':'] + PrintOnto(e.value, tail));
      Regroup(":", Text(e.value), tail);
      Regroup(Quote(e.key), ":", Text(e.value));
      Regroup(Quote(e.key), ":" + Text(e.value), tail);
      RestCons(Quote(e.key) + ":" + Text(e.value), Fields(entries[1..]), first, "}", rest);
      NothingBefore(['\"'] + StringOnto(e.key, [':'] + PrintOnto(e.value, tail)));
    }
  }

  /** The printer, which appends to what follows, prints the compact text. */
  lemma PrintsText(j: Json)
    ensures Print(j) == Text(j)
  {
    PrintOntoText(j, []);
    assert Text(j) + [] == Text(j);
  }
}
