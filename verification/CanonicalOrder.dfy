/**
What a canonical value looks like, said without sort keys: which arrays are
rearranged, and in which order their items and the entries of objects come.
*/
module CanonicalOrder {
  import opened Common
  import opened Ordering
  import opened Json
  import opened Canonicalizer

  // ----- The order of strings -----

  /** `a` and `b` agree up to `k`, where `a` ends first or has the smaller character. */
  predicate DifferAt(a: string, b: string, k: nat)
  {
    k <= |a| && k < |b| && a[..k] == b[..k] && (k == |a| || a[k] < b[k])
  }

  lemma {:induction false} LexLessIff(a: string, b: string)
    ensures LexLess(a, b) <==> exists k: nat :: DifferAt(a, b, k)
  {
    if a == [] || b == [] || a[0] != b[0] {
      if LexLess(a, b) { assert DifferAt(a, b, 0); }
      if k: nat :| DifferAt(a, b, k) {
        if k > 0 { DifferHead(a, b, k); }
      }
    } else {
      LexLessIff(a[1..], b[1..]);
      if LexLess(a, b) {
        var k: nat :| DifferAt(a[1..], b[1..], k);
        DifferLater(a, b, k);
      }
      if k: nat :| DifferAt(a, b, k) { DifferEarlier(a, b, k); }
    }
  }

  lemma DifferHead(a: string, b: string, k: nat)
    requires DifferAt(a, b, k) && k > 0
    ensures a != [] && b != [] && a[0] == b[0]
  {
    assert a[..k][0] == b[..k][0];
  }

  lemma DifferLater(a: string, b: string, k: nat)
    requires a != [] && b != [] && a[0] == b[0] && DifferAt(a[1..], b[1..], k)
    ensures DifferAt(a, b, k + 1)
  {
    assert a[..k + 1] == [a[0]] + a[1..][..k] && b[..k + 1] == [b[0]] + b[1..][..k];
  }

  lemma DifferEarlier(a: string, b: string, k: nat)
    requires a != [] && b != [] && a[0] == b[0] && DifferAt(a, b, k)
    ensures k > 0 && DifferAt(a[1..], b[1..], k - 1)
  {
    assert a[1..][..k - 1] == a[..k][1..] && b[1..][..k - 1] == b[..k][1..];
  }

  lemma {:induction false} LexAfterPrefix(p: string, x: string, y: string)
    ensures LexLess(p + x, p + y) <==> LexLess(x, y)
  {
    if p == [] {
      NothingBefore(x);
      NothingBefore(y);
    } else {
      LexAfterPrefix(p[1..], x, y);
      assert (p + x)[1..] == p[1..] + x && (p + y)[1..] == p[1..] + y;
    }
  }

  // ----- Ranks and labels -----

  /**
  The place of an orderable item in a canonical array: booleans, numbers, null,
  references, strings and titled objects, in this order, and within each kind
  by its text.  A titled object with a string `$ref` counts as a reference.
  */
  ghost predicate Placed(item: Json, rank: nat, name: string)
  {
    match item
    case Bool(b) => rank == 0 && name == if b then "true" else "false"
    case Num(n) => rank == 1 && name == NumberText(n)
    case Null => rank == 2 && name == ""
    case Str(s) => rank == 4 && name == s
    case Object(entries) =>
      || (rank == 3 && Entry("$ref", Str(name)) in entries)
      || (rank == 5 && Entry("title", Str(name)) in entries && !HasString(entries, "$ref"))
    case Array(_) => false
  }

  function PrefixOf(rank: nat): string
  {
    match rank
    case 0 => "b:"
    case 1 => "n:"
    case 2 => "null"
    case 3 => "ref:"
    case 4 => "s:"
    case _ => "title:"
  }

  /** Exactly the orderable items have a place. */
  lemma PlacedIff(item: Json)
    ensures Orderable(item) <==> exists rank: nat, name :: Placed(item, rank, name)
  {
    match item
    case Bool(b) => assert Placed(item, 0, if b then "true" else "false");
    case Num(n) => assert Placed(item, 1, NumberText(n));
    case Null => assert Placed(item, 2, "");
    case Str(s) => assert Placed(item, 4, s);
    case Array(_) =>
    case Object(es) =>
      if i :| 0 <= i < |es| && es[i].key == "$ref" && es[i].value.Str? {
        assert es[i] == Entry("$ref", Str(es[i].value.s));
        assert Placed(item, 3, es[i].value.s);
      } else if i :| 0 <= i < |es| && es[i].key == "title" && es[i].value.Str? {
        assert es[i] == Entry("title", Str(es[i].value.s));
        assert Placed(item, 5, es[i].value.s);
      }
  }

  lemma PlaceIsKey(item: Json, rank: nat, name: string)
    requires Valid(item) && Placed(item, rank, name)
    ensures rank <= 5 && SortKey(item) == Some(PrefixOf(rank) + name)
  {
    if item.Null? {
      assert "null" + name == "null";
    } else if item.Object? {
      var es := item.entries;
      FieldIff(es, "$ref");
      FieldIff(es, "title");
      var key := if rank == 3 then "$ref" else "title";
      assert Entry(key, Str(name)) in es;
      var i :| 0 <= i < |es| && es[i] == Entry(key, Str(name));
      assert StringField(es, key) == Some(name);
    }
  }

  lemma PrefixesAscend(r: nat, s: nat, x: string, y: string)
    requires r <= 5 && s <= 5
    ensures LexLess(PrefixOf(r) + x, PrefixOf(s) + y) <==> r < s || (r == s && LexLess(x, y))
  {
    if r == s {
      LexAfterPrefix(PrefixOf(r), x, y);
    } else {
      var a, b := PrefixOf(r) + x, PrefixOf(s) + y;
      assert a[0] == PrefixOf(r)[0] && b[0] == PrefixOf(s)[0];
      assert a[1] == PrefixOf(r)[1] && b[1] == PrefixOf(s)[1];
      assert a[1..][0] == a[1] && b[1..][0] == b[1];
    }
  }

  lemma PrefixesDistinct(r: nat, s: nat, x: string, y: string)
    requires r <= 5 && s <= 5
    ensures PrefixOf(r) + x == PrefixOf(s) + y <==> r == s && x == y
  {
    var a, b := PrefixOf(r) + x, PrefixOf(s) + y;
    if a == b {
      if LexLess(x, y) || LexLess(y, x) || r != s {
        PrefixesAscend(r, s, x, y);
        PrefixesAscend(s, r, y, x);
        if LexLess(a, b) { LexAsymmetric(a, b); }
      }
      LexTotal(x, y);
    }
  }

  // ----- Canonical arrays -----

  predicate TextLe(a: string, b: string)
  {
    a == b || LexLess(a, b)
  }

  /** By rank, then by name, then by compact text. */
  predicate ComesBefore(r: nat, x: string, a: Json, s: nat, y: string, b: Json)
  {
    r < s || (r == s && (LexLess(x, y) || (x == y && TextLe(Print(a), Print(b)))))
  }

  lemma OrderByPlace(a: Json, b: Json, r: nat, x: string, s: nat, y: string)
    requires Valid(a) && Valid(b) && Placed(a, r, x) && Placed(b, s, y)
    ensures ItemLe(a, b) <==> ComesBefore(r, x, a, s, y, b)
  {
    PlaceIsKey(a, r, x);
    PlaceIsKey(b, s, y);
    PrefixesAscend(r, s, x, y);
    PrefixesDistinct(r, s, x, y);
  }

  ghost predicate Ascends(items: seq<Json>)
  {
    forall i, j, r, x, s, y :: 0 <= i < j < |items| && Placed(items[i], r, x) && Placed(items[j], s, y) ==>
      ComesBefore(r, x, items[i], s, y, items[j])
  }

  ghost predicate AllValid(items: seq<Json>)
  {
    forall i :: 0 <= i < |items| ==> Valid(items[i])
  }

  /**
  The canonical form of an array of valid items: the canonical items in the
  order of their places if every item is orderable, and in their own order
  otherwise.
  */
  lemma CanonicalArray(items: seq<Json>)
    requires AllValid(items)
    ensures var cs, r := CanonItems(items), Canon(Array(items)).items;
      && multiset(r) == multiset(cs)
      && (AllOrderable(items) ==> AllOrderable(r) && Ascends(r))
      && (!AllOrderable(items) ==> r == cs)
  {
    var cs := CanonItems(items);
    CanonKeepsKeyed(items);
    CanonItemsValid(items);
    SortPermutes(cs, ItemLe);
    if AllOrderable(items) {
      SortedAscends(cs);
    }
  }

  lemma SortedAscends(cs: seq<Json>)
    requires AllValid(cs) && AllKeyed(cs)
    ensures AllOrderable(Sort(cs, ItemLe)) && Ascends(Sort(cs, ItemLe))
  {
    var t := Sort(cs, ItemLe);
    SortPermutes(cs, ItemLe);
    ItemOrder();
    SortSorts(cs, ItemLe);
    forall i | 0 <= i < |t| ensures Valid(t[i]) && Orderable(t[i]) {
      assert t[i] in cs;
      KeyedIff(t[i]);
    }
    forall i, j, r, x, s, y | 0 <= i < j < |t| && Placed(t[i], r, x) && Placed(t[j], s, y)
      ensures ComesBefore(r, x, t[i], s, y, t[j])
    {
      OrderByPlace(t[i], t[j], r, x, s, y);
    }
  }

  /** The order of orderable items does not matter to the canonical form. */
  lemma OrderForgotten(xs: seq<Json>, ys: seq<Json>)
    requires AllValid(xs) && AllOrderable(xs) && multiset(xs) == multiset(ys)
    ensures Canon(Array(xs)) == Canon(Array(ys))
  {
    var p := PermutationOfMultiset(xs, ys);
    forall i | 0 <= i < |ys| ensures Valid(ys[i]) && Orderable(ys[i]) { assert ys[i] in multiset(xs); }
    CanonKeepsKeyed(xs);
    CanonKeepsKeyed(ys);
    CanonItemsValid(xs);
    forall i | 0 <= i < |xs| ensures CanonItems(xs)[i] == CanonItems(ys)[p[i]] { assert xs[i] == ys[p[i]]; }
    MultisetOfPermutation(CanonItems(xs), CanonItems(ys), p);
    SameItemSort(CanonItems(xs), CanonItems(ys));
  }

  // ----- Canonical objects -----

  /** The canonical form of an object: its entries, canonical, in strictly ascending order of their keys. */
  lemma CanonicalObject(entries: seq<Entry>)
    requires DistinctKeys(entries)
    ensures var cs, r := CanonEntries(entries), Canon(Object(entries)).entries;
      && multiset(r) == multiset(cs)
      && forall i, j :: 0 <= i < j < |r| ==> LexLess(r[i].key, r[j].key)
  {
    var cs := CanonEntries(entries);
    var r := Sort(cs, EntryLe);
    EntryOrder();
    SortPermutes(cs, EntryLe);
    SortSorts(cs, EntryLe);
    DistinctAfterPermuting(cs, r);
    forall i, j | 0 <= i < j < |r| ensures LexLess(r[i].key, r[j].key) { assert EntryLe(r[i], r[j]); }
  }

  /** A pair of titled objects comes out by title, whichever way round it went in. */
  lemma TitlesAscend(a: string, b: string)
    requires LexLess(a, b)
    ensures var x, y := Object([Entry("title", Str(a))]), Object([Entry("title", Str(b))]);
      Canon(Array([y, x])) == Canon(Array([x, y])) == Array([x, y])
  {
    var x, y := Object([Entry("title", Str(a))]), Object([Entry("title", Str(b))]);
    assert Entry("title", Str(a)) in x.entries && Entry("title", Str(b)) in y.entries;
    OneEntry(Entry("title", Str(a)));
    OneEntry(Entry("title", Str(b)));
    assert Placed(x, 5, a) && Placed(y, 5, b);
    OrderByPlace(x, y, 5, a, 5, b);
    OrderByPlace(y, x, 5, b, 5, a);
    LexAsymmetric(a, b);
    assert x.entries[0].key == "title" && y.entries[0].key == "title";
    assert Orderable(x) && Orderable(y);
    PairSorts(x, y);
    OrderForgotten([y, x], [x, y]);
  }

  lemma OneEntry(e: Entry)
    requires e.value.Str?
    ensures Canon(Object([e])) == Object([e]) && Valid(Object([e]))
  {
    assert CanonEntries([e]) == [e];
    assert [e][1..] == [];
    assert Sort([e], EntryLe) == [e];
  }

  lemma PairSorts(x: Json, y: Json)
    requires Valid(x) && Valid(y) && Orderable(x) && Orderable(y) && Canon(x) == x && Canon(y) == y && ItemLe(x, y)
    ensures Canon(Array([x, y])) == Array([x, y])
  {
    KeyedIff(x);
    KeyedIff(y);
    assert CanonItems([x, y]) == [x, y];
    assert [x, y][1..] == [y] && [y][1..] == [];
    assert Sort([y], ItemLe) == [y];
    assert Sort([x, y], ItemLe) == [x, y];
  }
}
