/**
 * The item list of the user dashboard: a case-insensitive substring search
 * over an item's name or description, then a comparator-driven sort of a
 * copy of the filtered list, and the two empty-state messages.
 *
 * The sort is the stable sort ECMAScript requires of `Array.prototype.sort`,
 * modelled as a stable insertion sort driven by the page's comparator;
 * `localeCompare` is modelled as lexicographic comparison by code point and
 * `createdAt` as milliseconds.
 */
module UserDashboard {
  import opened Wrappers
  import opened Text

  /** A dashboard item, as far as searching and sorting look at it; a name or description may be missing. */
  datatype Item = Item(itemName: Option<string>, itemDescription: Option<string>, createdAt: int)

  /** The initial `items`: the given list when it is an array (`Some`), otherwise the empty list. */
  function InitialItems(initialItems: Option<seq<Item>>): (items: seq<Item>)
    ensures initialItems.Some? ==> items == initialItems.value
    ensures initialItems.None? ==> items == []
  {
    initialItems.GetOr([])
  }

  // ----- Search -------------------------------------------------------------

  /** `field?.toLowerCase().includes(query.toLowerCase())`, a missing field never matching. */
  predicate FieldMatches(field: Option<string>, query: string) {
    field.Some? && Includes(Lower(field.value), Lower(query))
  }

  /** The search test: the lower-cased name or description contains the lower-cased query. */
  predicate Matches(item: Item, query: string): (b: bool)
    ensures b <==>
      || (item.itemName.Some? && Contains(Lower(item.itemName.value), Lower(query)))
      || (item.itemDescription.Some? && Contains(Lower(item.itemDescription.value), Lower(query)))
  {
    FieldMatches(item.itemName, query) || FieldMatches(item.itemDescription, query)
  }

  /** `Array.prototype.filter` */
  function FilterBy<T>(s: seq<T>, keep: T -> bool): (r: seq<T>)
    ensures |r| <= |s|
  {
    if s == [] then [] else (if keep(s[0]) then [s[0]] else []) + FilterBy(s[1..], keep)
  }

  /** The filter keeps exactly the elements that pass the test; with none passing, nothing is left. */
  lemma {:induction false} FilterByMembers<T>(s: seq<T>, keep: T -> bool)
    ensures forall x :: x in FilterBy(s, keep) <==> x in s && keep(x)
    ensures (forall x :: x in s ==> !keep(x)) ==> FilterBy(s, keep) == []
  {
    if s != [] {
      FilterByMembers(s[1..], keep);
      assert forall x :: x in s <==> x == s[0] || x in s[1..];
    }
  }

  /** The filter keeps the relative order of what it keeps: it distributes over concatenation. */
  lemma {:induction false} FilterByAppend<T>(a: seq<T>, b: seq<T>, keep: T -> bool)
    ensures FilterBy(a + b, keep) == FilterBy(a, keep) + FilterBy(b, keep)
  {
    if a == [] {
      assert a + b == b;
    } else {
      var head := if keep(a[0]) then [a[0]] else [];
      assert (a + b)[0] == a[0];
      assert (a + b)[1..] == a[1..] + b;
      assert FilterBy(a + b, keep) == head + FilterBy(a[1..] + b, keep);
      FilterByAppend(a[1..], b, keep);
      assert head + (FilterBy(a[1..], keep) + FilterBy(b, keep)) == (head + FilterBy(a[1..], keep)) + FilterBy(b, keep);
    }
  }

  /** Filters by pointwise-equal tests agree. */
  lemma {:induction false} FilterByCongruent<T>(s: seq<T>, f: T -> bool, g: T -> bool)
    requires forall x :: f(x) == g(x)
    ensures FilterBy(s, f) == FilterBy(s, g)
  {
    if s != [] {
      FilterByCongruent(s[1..], f, g);
    }
  }

  /** `filteredItems` */
  function Search(items: seq<Item>, query: string): (r: seq<Item>)
    ensures |r| <= |items|
    ensures forall x :: x in r <==> x in items && Matches(x, query)
  {
    FilterByMembers(items, x => Matches(x, query));
    FilterBy(items, x => Matches(x, query))
  }

  /** An item is kept exactly when its lower-cased name or description contains the lower-cased query. */
  lemma SearchMeaning(items: seq<Item>, query: string, x: Item)
    requires x in items
    ensures x in Search(items, query) <==>
      || (x.itemName.Some? && Contains(Lower(x.itemName.value), Lower(query)))
      || (x.itemDescription.Some? && Contains(Lower(x.itemDescription.value), Lower(query)))
  {
  }

  /** The query's case does not matter. */
  lemma SearchIgnoresQueryCase(items: seq<Item>, query: string)
    ensures Search(items, Lower(query)) == Search(items, query)
  {
    LowerIdempotent(query);
    FilterByCongruent(items, x => Matches(x, Lower(query)), x => Matches(x, query));
  }

  /** The empty query keeps exactly the items that have a name or a description. */
  lemma {:induction false} EmptyQueryKeepsDescribed(x: Item)
    ensures Matches(x, "") <==> x.itemName.Some? || x.itemDescription.Some?
  {
    if x.itemName.Some? {
      assert OccursAt(Lower(x.itemName.value), Lower(""), 0);
    }
    if x.itemDescription.Some? {
      assert OccursAt(Lower(x.itemDescription.value), Lower(""), 0);
    }
  }

  // ----- Comparator ---------------------------------------------------------

  /** `a.localeCompare(b)`, modelled as lexicographic order by code point. */
  function LocaleCompare(a: string, b: string): (r: int)
    ensures -1 <= r <= 1
    ensures r == 0 <==> a == b
  {
    if a == [] && b == [] then 0
    else if a == [] then -1
    else if b == [] then 1
    else if a[0] < b[0] then -1
    else if a[0] > b[0] then 1
    else
      var r := LocaleCompare(a[1..], b[1..]);
      assert r == 0 ==> a == [a[0]] + a[1..] == [b[0]] + b[1..] == b;
      r
  }

  lemma {:induction false} LocaleCompareAntisymmetric(a: string, b: string)
    ensures LocaleCompare(b, a) == -LocaleCompare(a, b)
  {
    if a != [] && b != [] && a[0] == b[0] {
      LocaleCompareAntisymmetric(a[1..], b[1..]);
    }
  }

  lemma {:induction false} LocaleCompareTransitive(a: string, b: string, c: string)
    ensures LocaleCompare(a, b) <= 0 && LocaleCompare(b, c) <= 0 ==> LocaleCompare(a, c) <= 0
  {
    if a != [] && b != [] && c != [] && a[0] == b[0] == c[0] {
      LocaleCompareTransitive(a[1..], b[1..], c[1..]);
    }
  }

  /** The name a-z and z-a sort by; a missing name compares as the empty string. */
  function NameOf(item: Item): string {
    item.itemName.GetOr("")
  }

  /** The page's comparator: negative puts `a` first, positive puts `b` first, zero keeps their order. */
  function Compare(sortBy: string, a: Item, b: Item): (r: int)
    ensures sortBy == "newest" ==> (r < 0 <==> a.createdAt > b.createdAt) && (r == 0 <==> a.createdAt == b.createdAt)
    ensures sortBy == "oldest" ==> (r < 0 <==> a.createdAt < b.createdAt) && (r == 0 <==> a.createdAt == b.createdAt)
    ensures sortBy in {"a-z", "z-a"} ==> -1 <= r <= 1 && (r == 0 <==> NameOf(a) == NameOf(b))
    ensures sortBy !in {"newest", "oldest", "a-z", "z-a"} ==> r == 0
  {
    match sortBy
    case "newest" => b.createdAt - a.createdAt
    case "oldest" => a.createdAt - b.createdAt
    case "a-z" => LocaleCompare(NameOf(a), NameOf(b))
    case "z-a" => LocaleCompare(NameOf(b), NameOf(a))
    case _ => 0
  }

  /** `a` may precede `b` in the sorted list. */
  predicate InOrder(sortBy: string, a: Item, b: Item) {
    Compare(sortBy, a, b) <= 0
  }

  lemma CompareAntisymmetric(sortBy: string, a: Item, b: Item)
    ensures Compare(sortBy, b, a) == -Compare(sortBy, a, b)
  {
    LocaleCompareAntisymmetric(NameOf(a), NameOf(b));
  }

  /** Every comparator of the page is a total preorder: `<= 0` is transitive, and strictly so when one step is strict. */
  lemma CompareTransitive(sortBy: string, a: Item, b: Item, c: Item)
    ensures Compare(sortBy, a, b) <= 0 && Compare(sortBy, b, c) <= 0 ==> Compare(sortBy, a, c) <= 0
    ensures Compare(sortBy, a, b) < 0 && Compare(sortBy, b, c) <= 0 ==> Compare(sortBy, a, c) < 0
    ensures Compare(sortBy, a, b) <= 0 && Compare(sortBy, b, c) < 0 ==> Compare(sortBy, a, c) < 0
  {
    LocaleCompareTransitive(NameOf(a), NameOf(b), NameOf(c));
    LocaleCompareTransitive(NameOf(c), NameOf(b), NameOf(a));
    LocaleCompareAntisymmetric(NameOf(a), NameOf(b));
    LocaleCompareAntisymmetric(NameOf(b), NameOf(c));
    LocaleCompareAntisymmetric(NameOf(a), NameOf(c));
  }

  // ----- Sort ---------------------------------------------------------------

  predicate Sorted(sortBy: string, s: seq<Item>) {
    forall i, j :: 0 <= i < j < |s| ==> InOrder(sortBy, s[i], s[j])
  }

  /** Inserts `x`, which came after every element of `s`, behind all the elements it does not sort before. */
  function Insert(sortBy: string, s: seq<Item>, x: Item): seq<Item> {
    if s == [] then [x]
    else if InOrder(sortBy, s[0], x) then [s[0]] + Insert(sortBy, s[1..], x)
    else [x] + s
  }

  /** `[...filteredItems].sort(comparator)`: a stable sort of a copy. */
  function SortBy(sortBy: string, s: seq<Item>): seq<Item> {
    if s == [] then [] else Insert(sortBy, SortBy(sortBy, s[..|s| - 1]), s[|s| - 1])
  }

  lemma {:induction false} InsertPermutes(sortBy: string, s: seq<Item>, x: Item)
    ensures multiset(Insert(sortBy, s, x)) == multiset(s) + multiset{x}
  {
    if s != [] && InOrder(sortBy, s[0], x) {
      InsertPermutes(sortBy, s[1..], x);
      assert s == [s[0]] + s[1..];
    }
  }

  /** An item in order before everything in an ordered list can head it. */
  lemma ConsSorted(sortBy: string, e: Item, t: seq<Item>)
    requires Sorted(sortBy, t)
    requires forall k :: 0 <= k < |t| ==> InOrder(sortBy, e, t[k])
    ensures Sorted(sortBy, [e] + t)
  {
    forall i, j | 0 <= i < j < |[e] + t|
      ensures InOrder(sortBy, ([e] + t)[i], ([e] + t)[j])
    {
      assert ([e] + t)[j] == t[j - 1];
      if i > 0 {
        assert ([e] + t)[i] == t[i - 1];
      }
    }
  }

  /** An item in order before all of `s` and before `x` is in order before all of `Insert(s, x)`. */
  lemma InsertKeepsBound(sortBy: string, e: Item, s: seq<Item>, x: Item)
    requires forall k :: 0 <= k < |s| ==> InOrder(sortBy, e, s[k])
    requires InOrder(sortBy, e, x)
    ensures forall k :: 0 <= k < |Insert(sortBy, s, x)| ==> InOrder(sortBy, e, Insert(sortBy, s, x)[k])
  {
    var t := Insert(sortBy, s, x);
    InsertPermutes(sortBy, s, x);
    forall k | 0 <= k < |t|
      ensures InOrder(sortBy, e, t[k])
    {
      var y := t[k];
      assert y in multiset(t);
      if y != x {
        assert y in multiset(s);
        var j :| 0 <= j < |s| && s[j] == y;
      }
    }
  }

  lemma {:induction false} InsertSorted(sortBy: string, s: seq<Item>, x: Item)
    requires Sorted(sortBy, s)
    ensures Sorted(sortBy, Insert(sortBy, s, x))
  {
    if s == [] {
    } else if InOrder(sortBy, s[0], x) {
      InsertSorted(sortBy, s[1..], x);
      InsertKeepsBound(sortBy, s[0], s[1..], x);
      ConsSorted(sortBy, s[0], Insert(sortBy, s[1..], x));
    } else {
      CompareAntisymmetric(sortBy, s[0], x);
      forall j | 0 <= j < |s|
        ensures InOrder(sortBy, x, s[j])
      {
        CompareTransitive(sortBy, x, s[0], s[j]);
      }
      ConsSorted(sortBy, x, s);
    }
  }

  /** The sorted list is ordered by the comparator and is a permutation of its input. */
  lemma {:induction false} SortByCorrect(sortBy: string, s: seq<Item>)
    ensures Sorted(sortBy, SortBy(sortBy, s))
    ensures multiset(SortBy(sortBy, s)) == multiset(s)
  {
    if s != [] {
      var p := s[..|s| - 1];
      SortByCorrect(sortBy, p);
      InsertSorted(sortBy, SortBy(sortBy, p), s[|s| - 1]);
      InsertPermutes(sortBy, SortBy(sortBy, p), s[|s| - 1]);
      assert s == p + [s[|s| - 1]];
    }
  }

  /** The items the comparator cannot tell apart from `e`, in their order. */
  function TiedWith(sortBy: string, e: Item, s: seq<Item>): seq<Item> {
    if s == [] then []
    else (if Compare(sortBy, s[0], e) == 0 then [s[0]] else []) + TiedWith(sortBy, e, s[1..])
  }

  lemma {:induction false} TiedWithAppend(sortBy: string, e: Item, a: seq<Item>, b: seq<Item>)
    ensures TiedWith(sortBy, e, a + b) == TiedWith(sortBy, e, a) + TiedWith(sortBy, e, b)
  {
    if a == [] {
      assert a + b == b;
    } else {
      assert (a + b)[0] == a[0];
      assert (a + b)[1..] == a[1..] + b;
      TiedWithAppend(sortBy, e, a[1..], b);
    }
  }

  lemma {:induction false} NoneTied(sortBy: string, e: Item, s: seq<Item>)
    requires forall j :: 0 <= j < |s| ==> Compare(sortBy, s[j], e) != 0
    ensures TiedWith(sortBy, e, s) == []
  {
    if s != [] {
      NoneTied(sortBy, e, s[1..]);
    }
  }

  lemma {:induction false} InsertStable(sortBy: string, e: Item, s: seq<Item>, x: Item)
    requires Sorted(sortBy, s)
    ensures TiedWith(sortBy, e, Insert(sortBy, s, x)) == TiedWith(sortBy, e, s) + TiedWith(sortBy, e, [x])
  {
    if s == [] {
    } else if InOrder(sortBy, s[0], x) {
      InsertStable(sortBy, e, s[1..], x);
      TiedWithAppend(sortBy, e, [s[0]], Insert(sortBy, s[1..], x));
      TiedWithAppend(sortBy, e, [s[0]], s[1..]);
      assert [s[0]] + s[1..] == s;
    } else {
      TiedWithAppend(sortBy, e, [x], s);
      if Compare(sortBy, x, e) == 0 {
        // x sorts strictly before every element of s, so none of them is tied with e
        CompareAntisymmetric(sortBy, s[0], x);
        CompareAntisymmetric(sortBy, x, e);
        forall j | 0 <= j < |s|
          ensures Compare(sortBy, s[j], e) != 0
        {
          CompareTransitive(sortBy, x, s[0], s[j]);
          CompareTransitive(sortBy, e, x, s[j]);
          CompareAntisymmetric(sortBy, e, s[j]);
        }
        NoneTied(sortBy, e, s);
      }
    }
  }

  /** Stability: among items the comparator ties, the sorted list keeps the input order. */
  lemma {:induction false} SortByStable(sortBy: string, e: Item, s: seq<Item>)
    ensures TiedWith(sortBy, e, SortBy(sortBy, s)) == TiedWith(sortBy, e, s)
  {
    if s != [] {
      var p, x := s[..|s| - 1], s[|s| - 1];
      SortByStable(sortBy, e, p);
      SortByCorrect(sortBy, p);
      InsertStable(sortBy, e, SortBy(sortBy, p), x);
      TiedWithAppend(sortBy, e, p, [x]);
      assert s == p + [x];
    }
  }

  /** An unknown sort key compares every pair as equal, so the filtered order is kept. */
  lemma {:induction false} UnknownKeyKeepsOrder(sortBy: string, s: seq<Item>)
    requires sortBy !in {"newest", "oldest", "a-z", "z-a"}
    ensures SortBy(sortBy, s) == s
  {
    if s != [] {
      var p, x := s[..|s| - 1], s[|s| - 1];
      UnknownKeyKeepsOrder(sortBy, p);
      InsertAppends(sortBy, p, x);
      assert s == p + [x];
    }
  }

  lemma {:induction false} InsertAppends(sortBy: string, s: seq<Item>, x: Item)
    requires sortBy !in {"newest", "oldest", "a-z", "z-a"}
    ensures Insert(sortBy, s, x) == s + [x]
  {
    if s != [] {
      InsertAppends(sortBy, s[1..], x);
      assert s == [s[0]] + s[1..];
    }
  }

  /** 'newest' puts later `createdAt` first, 'oldest' earlier first; 'a-z' and 'z-a' order by name. */
  lemma SortKeysMeaning(s: seq<Item>, i: int, j: int)
    requires 0 <= i < j < |s|
    ensures Sorted("newest", s) ==> s[i].createdAt >= s[j].createdAt
    ensures Sorted("oldest", s) ==> s[i].createdAt <= s[j].createdAt
    ensures Sorted("a-z", s) ==> LocaleCompare(NameOf(s[i]), NameOf(s[j])) <= 0
    ensures Sorted("z-a", s) ==> LocaleCompare(NameOf(s[j]), NameOf(s[i])) <= 0
  {
    assert InOrder("newest", s[i], s[j]) ==> s[i].createdAt >= s[j].createdAt;
  }

  // ----- What the page shows -------------------------------------------------

  /** `sortedItems` */
  function Visible(items: seq<Item>, query: string, sortBy: string): (r: seq<Item>)
    ensures multiset(r) == multiset(Search(items, query))
    ensures Sorted(sortBy, r)
  {
    SortByCorrect(sortBy, Search(items, query));
    SortBy(sortBy, Search(items, query))
  }

  /** The "No items yet" condition. */
  predicate ShowsNoItemsYet(items: seq<Item>, sortedItems: seq<Item>) {
    |sortedItems| == 0 && |items| == 0
  }

  /** The "No items found" condition. */
  predicate ShowsNoResults(items: seq<Item>, sortedItems: seq<Item>) {
    |sortedItems| == 0 && |items| > 0
  }

  /** "No items yet" shows exactly when there are no items; "No items found" exactly when there are some and none matches. */
  lemma {:induction false} EmptyStates(items: seq<Item>, query: string, sortBy: string)
    ensures ShowsNoItemsYet(items, Visible(items, query, sortBy)) <==> items == []
    ensures ShowsNoResults(items, Visible(items, query, sortBy)) <==>
      items != [] && forall x :: x in items ==> !Matches(x, query)
  {
    var r := Visible(items, query, sortBy);
    assert |r| == |multiset(r)| == |multiset(Search(items, query))| == |Search(items, query)|;
    if Search(items, query) != [] {
      assert Search(items, query)[0] in items;
    }
  }
}
