/**
The schema fixture canonicaliser: objects are sorted by key, and an array is
sorted when every element has a sort key, by that key and then by its compact
text.
*/
module Canonicalizer {
  import opened Common
  import opened Ordering
  import opened Json

  // ----- Sort keys -----

  function Lookup(entries: seq<Entry>, key: string): Option<Json>
  {
    if entries == [] then None
    else if entries[0].key == key then Some(entries[0].value)
    else Lookup(entries[1..], key)
  }

  function StringField(entries: seq<Entry>, key: string): Option<string>
  {
    match Lookup(entries, key)
    case Some(Str(s)) => Some(s)
    case _ => None
  }

  /** `schema_array_item_sort_key`. */
  function SortKey(item: Json): Option<string>
  {
    match item
    case Null => Some("null")
    case Bool(b) => Some("b:" + BoolText(b))
    case Num(n) => Some("n:" + NumberText(n))
    case Str(s) => Some("s:" + s)
    case Object(entries) =>
      if StringField(entries, "$ref").Some? then Some("ref:" + StringField(entries, "$ref").value)
      else if StringField(entries, "title").Some? then Some("title:" + StringField(entries, "title").value)
      else None
    case Array(_) => None
  }

  predicate AllKeyed(items: seq<Json>)
  {
    forall i :: 0 <= i < |items| ==> SortKey(items[i]).Some?
  }

  // ----- The two orders -----

  /** Key first, compact text on equal keys. */
  predicate PairLe(a: (string, string), b: (string, string))
  {
    LexLess(a.0, b.0) || (a.0 == b.0 && (a.1 == b.1 || LexLess(a.1, b.1)))
  }

  function Tag(item: Json): (string, string)
  {
    (match SortKey(item) case Some(k) => k case None => "", Print(item))
  }

  predicate ItemLe(a: Json, b: Json)
  {
    PairLe(Tag(a), Tag(b))
  }

  predicate EntryLe(a: Entry, b: Entry)
  {
    a.key == b.key || LexLess(a.key, b.key)
  }

  // ----- The canonical form -----

  function Canon(v: Json): Json
    decreases v, 1
  {
    match v
    case Array(items) => Array(Arrange(CanonItems(items)))
    case Object(entries) => Object(Sort(CanonEntries(entries), EntryLe))
    case _ => v
  }

  function CanonItems(items: seq<Json>): seq<Json>
    decreases items, 0
  {
    seq(|items|, i requires 0 <= i < |items| => Canon(items[i]))
  }

  function CanonEntries(entries: seq<Entry>): seq<Entry>
    decreases entries, 0
  {
    seq(|entries|, i requires 0 <= i < |entries| => Entry(entries[i].key, Canon(entries[i].value)))
  }

  function Arrange(items: seq<Json>): seq<Json>
  {
    if AllKeyed(items) then Sort(items, ItemLe) else items
  }

  // ----- What canonical forms decide -----

  predicate HasString(entries: seq<Entry>, key: string)
  {
    exists i :: 0 <= i < |entries| && entries[i].key == key && entries[i].value.Str?
  }

  /** The items whose order in an array is taken not to matter: scalars, references and titled objects. */
  predicate Orderable(item: Json)
  {
    match item
    case Array(_) => false
    case Object(entries) => HasString(entries, "$ref") || HasString(entries, "title")
    case _ => true
  }

  predicate AllOrderable(items: seq<Json>)
  {
    forall i :: 0 <= i < |items| ==> Orderable(items[i])
  }

  /**
  The congruence that ignores the order of object entries and the order of
  arrays whose elements are all orderable; other arrays compare in order.
  */
  ghost predicate Equiv(a: Json, b: Json)
    decreases a
  {
    match a
    case Array(xs) =>
      && b.Array? && |b.items| == |xs|
      && if AllOrderable(xs) then
           exists p: seq<nat> :: IsPermutation(p, |xs|) &&
             forall i :: 0 <= i < |xs| ==> Equiv(xs[i], b.items[p[i]])
         else
           forall i :: 0 <= i < |xs| ==> Equiv(xs[i], b.items[i])
    case Object(es) =>
      && b.Object? && |b.entries| == |es|
      && exists p: seq<nat> :: IsPermutation(p, |es|) &&
           forall i :: 0 <= i < |es| ==>
             es[i].key == b.entries[p[i]].key && Equiv(es[i].value, b.entries[p[i]].value)
    case _ => a == b
  }

  // ----- Order lemmas -----

  lemma PairLeTransitive(x: (string, string), y: (string, string), z: (string, string))
    requires PairLe(x, y) && PairLe(y, z)
    ensures PairLe(x, z)
  {
    if LexLess(x.0, y.0) && LexLess(y.0, z.0) { LexTransitive(x.0, y.0, z.0); }
    if LexLess(x.1, y.1) && LexLess(y.1, z.1) { LexTransitive(x.1, y.1, z.1); }
  }

  lemma ItemOrder()
    ensures TotalPreorder(ItemLe)
  {
    forall x, y ensures ItemLe(x, y) || ItemLe(y, x) {
      LexTotal(Tag(x).0, Tag(y).0);
      LexTotal(Tag(x).1, Tag(y).1);
    }
    forall x, y, z | ItemLe(x, y) && ItemLe(y, z) ensures ItemLe(x, z) {
      PairLeTransitive(Tag(x), Tag(y), Tag(z));
    }
  }

  lemma EntryOrder()
    ensures TotalPreorder(EntryLe)
  {
    forall x, y ensures EntryLe(x, y) || EntryLe(y, x) {
      LexTotal(x.key, y.key);
    }
    forall x, y, z | EntryLe(x, y) && EntryLe(y, z) ensures EntryLe(x, z) {
      if LexLess(x.key, y.key) && LexLess(y.key, z.key) { LexTransitive(x.key, y.key, z.key); }
    }
  }

  /** Equal key and equal text leave no choice, because the printer is injective. */
  lemma ItemTies(items: seq<Json>)
    requires forall i :: 0 <= i < |items| ==> Valid(items[i])
    ensures TiesAreEqual(items, ItemLe)
  {
    forall x, y | x in items && y in items && ItemLe(x, y) && ItemLe(y, x) ensures x == y {
      if LexLess(Tag(x).0, Tag(y).0) { LexAsymmetric(Tag(x).0, Tag(y).0); }
      if LexLess(Tag(x).1, Tag(y).1) { LexAsymmetric(Tag(x).1, Tag(y).1); }
      PrintInjective(x, y);
    }
  }

  lemma EntryTies(entries: seq<Entry>)
    requires DistinctKeys(entries)
    ensures TiesAreEqual(entries, EntryLe)
  {
    forall x, y | x in entries && y in entries && EntryLe(x, y) && EntryLe(y, x) ensures x == y {
      if LexLess(x.key, y.key) { LexAsymmetric(x.key, y.key); }
    }
  }

  lemma SameItemSort(xs: seq<Json>, ys: seq<Json>)
    requires forall i :: 0 <= i < |xs| ==> Valid(xs[i])
    requires multiset(xs) == multiset(ys)
    ensures Sort(xs, ItemLe) == Sort(ys, ItemLe)
  {
    ItemOrder();
    SortSorts(xs, ItemLe);
    SortSorts(ys, ItemLe);
    SortPermutes(xs, ItemLe);
    SortPermutes(ys, ItemLe);
    ItemTies(xs);
    SortedUnique(Sort(xs, ItemLe), Sort(ys, ItemLe), ItemLe);
  }

  lemma SameEntrySort(ds: seq<Entry>, es: seq<Entry>)
    requires DistinctKeys(ds) && multiset(ds) == multiset(es)
    ensures Sort(ds, EntryLe) == Sort(es, EntryLe)
  {
    EntryOrder();
    SortSorts(ds, EntryLe);
    SortSorts(es, EntryLe);
    SortPermutes(ds, EntryLe);
    SortPermutes(es, EntryLe);
    EntryTies(ds);
    SortedUnique(Sort(ds, EntryLe), Sort(es, EntryLe), EntryLe);
  }

  // ----- Keys and validity survive -----

  lemma {:induction false} LookupFinds(entries: seq<Entry>, key: string, i: nat)
    requires DistinctKeys(entries) && i < |entries| && entries[i].key == key
    ensures Lookup(entries, key) == Some(entries[i].value)
  {
    if i > 0 { LookupFinds(entries[1..], key, i - 1); }
  }

  lemma {:induction false} LookupMisses(entries: seq<Entry>, key: string)
    requires forall i :: 0 <= i < |entries| ==> entries[i].key != key
    ensures Lookup(entries, key) == None
  {
    if entries != [] { LookupMisses(entries[1..], key); }
  }

  /** The lookup finds a string exactly when the object holds one under that key. */
  lemma FieldIff(entries: seq<Entry>, key: string)
    requires DistinctKeys(entries)
    ensures StringField(entries, key).Some? <==> HasString(entries, key)
    ensures forall i :: 0 <= i < |entries| && entries[i].key == key && entries[i].value.Str? ==>
      StringField(entries, key) == Some(entries[i].value.s)
  {
    if i: nat :| i < |entries| && entries[i].key == key {
      LookupFinds(entries, key, i);
    } else {
      LookupMisses(entries, key);
    }
  }

  lemma KeyedIff(item: Json)
    requires Valid(item)
    ensures SortKey(item).Some? <==> Orderable(item)
  {
    if item.Object? {
      FieldIff(item.entries, "$ref");
      FieldIff(item.entries, "title");
    }
  }

  lemma AllKeyedIff(items: seq<Json>)
    requires forall i :: 0 <= i < |items| ==> Valid(items[i])
    ensures AllKeyed(items) <==> AllOrderable(items)
  {
    forall i | 0 <= i < |items| ensures SortKey(items[i]).Some? <==> Orderable(items[i]) { KeyedIff(items[i]); }
  }

  lemma DistinctAfterPermuting(ds: seq<Entry>, es: seq<Entry>)
    requires DistinctKeys(ds) && multiset(ds) == multiset(es)
    ensures DistinctKeys(es)
  {
    var p := PermutationOfMultiset(es, ds);
  }

  lemma SortMembers<T>(s: seq<T>, le: (T, T) -> bool, x: T)
    requires x in Sort(s, le)
    ensures x in s
  {
    SortPermutes(s, le);
  }

  /** The canonical entries are the entries' own, rearranged. */
  lemma SortedEntries(es: seq<Entry>) returns (p: seq<nat>)
    requires DistinctKeys(es)
    ensures DistinctKeys(Sort(CanonEntries(es), EntryLe))
    ensures Matches(CanonEntries(es), Sort(CanonEntries(es), EntryLe), p)
  {
    var cs := CanonEntries(es);
    SortPermutes(cs, EntryLe);
    DistinctAfterPermuting(cs, Sort(cs, EntryLe));
    p := PermutationOfMultiset(cs, Sort(cs, EntryLe));
  }

  lemma FieldSurvives(es: seq<Entry>, key: string)
    requires DistinctKeys(es)
    ensures StringField(Sort(CanonEntries(es), EntryLe), key) == StringField(es, key)
  {
    var cs := CanonEntries(es);
    var s := Sort(cs, EntryLe);
    if i: nat :| i < |es| && es[i].key == key {
      var p := SortedEntries(es);
      LookupFinds(es, key, i);
      assert cs[i] == s[p[i]];
      LookupFinds(s, key, p[i]);
    } else {
      LookupMisses(es, key);
      forall k | 0 <= k < |s| ensures s[k].key != key { SortMembers(cs, EntryLe, s[k]); }
      LookupMisses(s, key);
    }
  }

  /** Canonicalising never changes an element's sort key. */
  lemma CanonKeepsSortKey(v: Json)
    requires Valid(v)
    ensures SortKey(Canon(v)) == SortKey(v)
  {
    if v.Object? {
      FieldSurvives(v.entries, "$ref");
      FieldSurvives(v.entries, "title");
    }
  }

  lemma CanonKeepsKeyed(items: seq<Json>)
    requires forall i :: 0 <= i < |items| ==> Valid(items[i])
    ensures AllKeyed(CanonItems(items)) <==> AllKeyed(items)
    ensures AllKeyed(items) <==> AllOrderable(items)
  {
    AllKeyedIff(items);
    forall i | 0 <= i < |items| ensures SortKey(CanonItems(items)[i]) == SortKey(items[i]) {
      CanonKeepsSortKey(items[i]);
    }
    if !AllKeyed(items) {
      var i :| 0 <= i < |items| && SortKey(items[i]).None?;
      assert SortKey(CanonItems(items)[i]).None?;
    }
  }

  lemma {:induction false} CanonValid(v: Json)
    requires Valid(v)
    ensures Valid(Canon(v))
  {
    match v
    case Array(items) =>
      var cs := CanonItems(items);
      forall i | 0 <= i < |items| ensures Valid(cs[i]) { CanonValid(items[i]); }
      SortPermutes(cs, ItemLe);
      forall i | 0 <= i < |Arrange(cs)| ensures Valid(Arrange(cs)[i]) {
        assert Arrange(cs)[i] in cs;
      }
    case Object(es) =>
      var p := SortedEntries(es);
      var s := Sort(CanonEntries(es), EntryLe);
      forall k | 0 <= k < |s| ensures Valid(s[k].value) {
        SortMembers(CanonEntries(es), EntryLe, s[k]);
        var i :| 0 <= i < |es| && s[k] == Entry(es[i].key, Canon(es[i].value));
        CanonValid(es[i].value);
      }
    case _ =>
  }

  lemma CanonItemsValid(items: seq<Json>)
    requires forall i :: 0 <= i < |items| ==> Valid(items[i])
    ensures forall i :: 0 <= i < |items| ==> Valid(CanonItems(items)[i])
  {
    forall i | 0 <= i < |items| ensures Valid(CanonItems(items)[i]) { CanonValid(items[i]); }
  }

  // ----- Equal canonical forms exactly for equivalent values -----

  lemma ArrangeSameKeyed(xs: seq<Json>, ys: seq<Json>)
    requires Arrange(xs) == Arrange(ys)
    ensures AllKeyed(xs) <==> AllKeyed(ys)
    ensures multiset(xs) == multiset(ys) && |xs| == |ys|
  {
    SortPermutes(xs, ItemLe);
    SortPermutes(ys, ItemLe);
    assert multiset(Arrange(xs)) == multiset(xs) && multiset(Arrange(ys)) == multiset(ys);
    assert |multiset(xs)| == |multiset(ys)|;
    if AllKeyed(xs) { KeyedOfSameElements(xs, ys); }
    if AllKeyed(ys) { KeyedOfSameElements(ys, xs); }
  }

  lemma KeyedOfSameElements(xs: seq<Json>, ys: seq<Json>)
    requires multiset(xs) == multiset(ys) && AllKeyed(xs)
    ensures AllKeyed(ys)
  {
    forall i | 0 <= i < |ys| ensures SortKey(ys[i]).Some? {
      assert ys[i] in multiset(xs);
    }
  }

  lemma {:induction false} EqualCanonIsEquiv(a: Json, b: Json)
    requires Valid(a) && Valid(b) && Canon(a) == Canon(b)
    ensures Equiv(a, b)
    decreases a
  {
    match a
    case Array(xs) =>
      var ys := b.items;
      var cx, cy := CanonItems(xs), CanonItems(ys);
      ArrangeSameKeyed(cx, cy);
      CanonKeepsKeyed(xs);
      CanonKeepsKeyed(ys);
      if AllOrderable(xs) {
        var p := PermutationOfMultiset(cx, cy);
        forall i | 0 <= i < |xs| ensures Equiv(xs[i], ys[p[i]]) {
          assert cx[i] == cy[p[i]];
          EqualCanonIsEquiv(xs[i], ys[p[i]]);
        }
      } else {
        forall i | 0 <= i < |xs| ensures Equiv(xs[i], ys[i]) {
          assert cx[i] == cy[i];
          EqualCanonIsEquiv(xs[i], ys[i]);
        }
      }
    case Object(ds) =>
      var es := b.entries;
      var cd, ce := CanonEntries(ds), CanonEntries(es);
      SortPermutes(cd, EntryLe);
      SortPermutes(ce, EntryLe);
      var p := PermutationOfMultiset(cd, ce);
      forall i | 0 <= i < |ds| ensures ds[i].key == es[p[i]].key && Equiv(ds[i].value, es[p[i]].value) {
        assert cd[i] == ce[p[i]];
        EqualCanonIsEquiv(ds[i].value, es[p[i]].value);
      }
    case _ =>
  }

  lemma {:induction false} EquivHasEqualCanon(a: Json, b: Json)
    requires Valid(a) && Valid(b) && Equiv(a, b)
    ensures Canon(a) == Canon(b)
    decreases a
  {
    match a
    case Array(xs) =>
      var ys := b.items;
      var cx, cy := CanonItems(xs), CanonItems(ys);
      CanonKeepsKeyed(xs);
      if AllOrderable(xs) {
        var p: seq<nat> :| IsPermutation(p, |xs|) && forall i :: 0 <= i < |xs| ==> Equiv(xs[i], ys[p[i]]);
        forall i | 0 <= i < |xs| ensures cx[i] == cy[p[i]] { EquivHasEqualCanon(xs[i], ys[p[i]]); }
        MultisetOfPermutation(cx, cy, p);
        KeyedOfSameElements(cx, cy);
        CanonItemsValid(xs);
        SameItemSort(cx, cy);
      } else {
        forall i | 0 <= i < |xs| ensures cx[i] == cy[i] { EquivHasEqualCanon(xs[i], ys[i]); }
        assert cx == cy;
      }
    case Object(ds) =>
      var es := b.entries;
      var cd, ce := CanonEntries(ds), CanonEntries(es);
      var p: seq<nat> :| IsPermutation(p, |ds|) &&
        forall i :: 0 <= i < |ds| ==> ds[i].key == es[p[i]].key && Equiv(ds[i].value, es[p[i]].value);
      forall i | 0 <= i < |ds| ensures cd[i] == ce[p[i]] { EquivHasEqualCanon(ds[i].value, es[p[i]].value); }
      MultisetOfPermutation(cd, ce, p);
      SameEntrySort(cd, ce);
    case _ =>
  }

  /** Canonical forms decide the congruence: equal exactly for equivalent values. */
  lemma CanonDecidesEquiv(a: Json, b: Json)
    requires Valid(a) && Valid(b)
    ensures Canon(a) == Canon(b) <==> Equiv(a, b)
  {
    if Canon(a) == Canon(b) { EqualCanonIsEquiv(a, b); }
    if Equiv(a, b) { EquivHasEqualCanon(a, b); }
  }

  /** Canonicalising stays inside the equivalence class. */
  lemma {:induction false} CanonIsEquiv(v: Json)
    requires Valid(v)
    ensures Equiv(v, Canon(v))
  {
    match v
    case Array(xs) =>
      var cs := CanonItems(xs);
      forall i | 0 <= i < |xs| ensures Equiv(xs[i], cs[i]) { CanonIsEquiv(xs[i]); }
      CanonKeepsKeyed(xs);
      if AllOrderable(xs) {
        SortPermutes(cs, ItemLe);
        var p := PermutationOfMultiset(cs, Sort(cs, ItemLe));
        forall i | 0 <= i < |xs| ensures Equiv(xs[i], Sort(cs, ItemLe)[p[i]]) { assert cs[i] == Sort(cs, ItemLe)[p[i]]; }
      }
    case Object(es) =>
      var cs := CanonEntries(es);
      forall i | 0 <= i < |es| ensures Equiv(es[i].value, cs[i].value) { CanonIsEquiv(es[i].value); }
      SortPermutes(cs, EntryLe);
      var p := PermutationOfMultiset(cs, Sort(cs, EntryLe));
      forall i | 0 <= i < |es|
        ensures es[i].key == Sort(cs, EntryLe)[p[i]].key && Equiv(es[i].value, Sort(cs, EntryLe)[p[i]].value)
      {
        assert cs[i] == Sort(cs, EntryLe)[p[i]];
      }
    case _ =>
  }

  lemma CanonIdempotent(v: Json)
    requires Valid(v)
    ensures Canon(Canon(v)) == Canon(v)
  {
    CanonValid(v);
    CanonIsEquiv(v);
    CanonDecidesEquiv(v, Canon(v));
  }

  // ----- The imperative form -----

  function Map<A, B>(f: A -> B, s: seq<A>): (r: seq<B>)
    ensures |r| == |s| && forall i :: 0 <= i < |s| ==> r[i] == f(s[i])
  {
    seq(|s|, i requires 0 <= i < |s| => f(s[i]))
  }

  ghost predicate KeepsOrder<A, B>(f: A -> B, s: seq<A>, le: (A, A) -> bool, le': (B, B) -> bool)
  {
    forall x, y :: x in s && y in s ==> (le(x, y) <==> le'(f(x), f(y)))
  }

  lemma {:induction false} InsertMap<A, B>(f: A -> B, x: A, s: seq<A>, le: (A, A) -> bool, le': (B, B) -> bool)
    requires forall y :: y in s ==> (le(x, y) <==> le'(f(x), f(y)))
    ensures Map(f, Insert(x, s, le)) == Insert(f(x), Map(f, s), le')
  {
    if s != [] && !le(x, s[0]) {
      InsertMap(f, x, s[1..], le, le');
      assert Map(f, s)[1..] == Map(f, s[1..]);
    }
  }

  /** Sorting commutes with a relabelling that keeps the order. */
  lemma {:induction false} SortMap<A, B>(f: A -> B, s: seq<A>, le: (A, A) -> bool, le': (B, B) -> bool)
    requires KeepsOrder(f, s, le, le')
    ensures Map(f, Sort(s, le)) == Sort(Map(f, s), le')
  {
    if s != [] {
      var t := Sort(s[1..], le);
      SortMap(f, s[1..], le, le');
      forall y | y in t ensures le(s[0], y) <==> le'(f(s[0]), f(y)) {
        SortMembers(s[1..], le, y);
        assert y in s;
      }
      InsertMap(f, s[0], t, le, le');
      assert Map(f, s)[1..] == Map(f, s[1..]);
    }
  }

  function Tagged(item: Json): (Json, (string, string))
  {
    (item, Tag(item))
  }

  predicate TaggedLe(a: (Json, (string, string)), b: (Json, (string, string)))
  {
    PairLe(a.1, b.1)
  }

  function Untagged(t: (Json, (string, string))): Json
  {
    t.0
  }

  function CanonEntry(e: Entry): Entry
  {
    Entry(e.key, Canon(e.value))
  }

  /** `canonicalize_json`, with its loops and its sorts. */
  method CanonicalizeJson(value: Json) returns (r: Json)
    ensures r == Canon(value)
    decreases value, 1
  {
    match value
    case Array(items) =>
      var out: seq<Json> := [];
      for i := 0 to |items|
        invariant out == CanonItems(items)[..i]
      {
        var c := CanonicalizeJson(items[i]);
        out := out + [c];
      }
      assert out == CanonItems(items);
      var arranged := ArrangeItems(out);
      return Array(arranged);
    case Object(entries) =>
      var sorted := CanonicalizeEntries(entries);
      return Object(sorted);
    case _ =>
      return value;
  }

  /** Tags every item, sorts the tagged items and drops the tags; stops at an item without a key. */
  method ArrangeItems(items: seq<Json>) returns (r: seq<Json>)
    ensures r == Arrange(items)
  {
    var sortable: seq<(string, string)> := [];
    for i := 0 to |items|
      invariant |sortable| == i
      invariant forall k :: 0 <= k < i ==> SortKey(items[k]).Some? && sortable[k] == Tag(items[k])
    {
      match SortKey(items[i])
      case None => return items;
      case Some(key) => sortable := sortable + [(key, Print(items[i]))];
    }
    var tagged := seq(|items|, i requires 0 <= i < |items| => (items[i], sortable[i]));
    var sorted := Sort(tagged, TaggedLe);
    assert tagged == Map(Tagged, items);
    SortMap(Tagged, items, ItemLe, TaggedLe);
    assert Map(Untagged, sorted) == Sort(items, ItemLe);
    return Map(Untagged, sorted);
  }

  /** Sorting looks only at keys, so the children may be canonicalised afterwards. */
  lemma SortThenCanon(entries: seq<Entry>)
    ensures CanonEntries(Sort(entries, EntryLe)) == Sort(CanonEntries(entries), EntryLe)
  {
    SortMap(CanonEntry, entries, EntryLe, EntryLe);
    assert CanonEntries(entries) == Map(CanonEntry, entries);
    assert CanonEntries(Sort(entries, EntryLe)) == Map(CanonEntry, Sort(entries, EntryLe));
  }

  method CanonicalizeEntries(entries: seq<Entry>) returns (r: seq<Entry>)
    ensures r == Sort(CanonEntries(entries), EntryLe)
    decreases entries, 0
  {
    var sorted := Sort(entries, EntryLe);
    SortThenCanon(entries);
    r := [];
    for i := 0 to |sorted|
      invariant r == CanonEntries(sorted)[..i]
    {
      SortMembers(entries, EntryLe, sorted[i]);
      var child := CanonicalizeJson(sorted[i].value);
      NextEntry(sorted, i);
      r := r + [Entry(sorted[i].key, child)];
    }
  }

  lemma NextEntry(entries: seq<Entry>, i: nat)
    requires i < |entries|
    ensures CanonEntries(entries)[..i + 1] == CanonEntries(entries)[..i] + [Entry(entries[i].key, Canon(entries[i].value))]
  {
    TakeNext(CanonEntries(entries), i);
    assert CanonEntries(entries)[i] == Entry(entries[i].key, Canon(entries[i].value));
  }

  lemma TakeNext<T>(a: seq<T>, i: nat)
    requires i < |a|
    ensures a[..i + 1] == a[..i] + [a[i]]
  {
  }
}
