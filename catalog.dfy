/** The product list of pages/Catalog.tsx: the category filter, the three sort
    orders, and the array the page shows. The sort runs in place, and for the
    'All' category the array it sorts is the shared catalogue itself. */
module Catalog {
  import opened Basics
  import opened Storefront

  datatype SortOrder = ByName | PriceLow | PriceHigh

  /** The sort selector: 'price-low', 'price-high', and anything else by name. */
  function ParseSortOrder(s: string): (r: SortOrder)
    ensures r == PriceLow <==> s == "price-low"
    ensures r == PriceHigh <==> s == "price-high"
  {
    if s == "price-low" then PriceLow else if s == "price-high" then PriceHigh else ByName
  }

  /** Whether the category button `category` shows `p`. Men and Women take their
      own gender and unisex products outside Accessories; any other label but
      'All' must equal the category exactly. */
  predicate CategoryKeeps(category: string, p: Product) {
    if category == "All" then true
    else if category == "Men" then p.gender == Some(Men) || (p.gender == Some(Unisex) && p.category != "Accessories")
    else if category == "Women" then p.gender == Some(Women) || (p.gender == Some(Unisex) && p.category != "Accessories")
    else p.category == category
  }

  /** The filtered list, in catalogue order. */
  function FilterCategory(products: seq<Product>, category: string): (r: seq<Product>)
    ensures forall p :: p in r <==> p in products && CategoryKeeps(category, p)
    ensures |r| <= |products|
  {
    if products == [] then []
    else
      var rest := FilterCategory(products[..|products| - 1], category);
      var last := products[|products| - 1];
      if CategoryKeeps(category, last) then rest + [last] else rest
  }

  /** 'All' keeps the catalogue as it is, and a unisex accessory appears under
      neither Men nor Women. */
  lemma {:induction false} FilterCategoryLaws(products: seq<Product>, category: string)
    ensures FilterCategory(products, "All") == products
    ensures forall p :: p in products && p.gender == Some(Unisex) && p.category == "Accessories" ==>
      p !in FilterCategory(products, "Men") && p !in FilterCategory(products, "Women")
  {
    if products != [] {
      FilterCategoryLaws(products[..|products| - 1], category);
      assert products == products[..|products| - 1] + [products[|products| - 1]];
    }
  }

  /** The filtered list keeps catalogue order. */
  lemma {:induction false} FilterCategoryIsSubsequence(products: seq<Product>, category: string)
    ensures IsSubsequence(FilterCategory(products, category), products)
  {
    if products == [] {
      SubsequenceOfEmpty(products);
    } else {
      var init := products[..|products| - 1];
      var r := FilterCategory(products, category);
      FilterCategoryIsSubsequence(init, category);
      if CategoryKeeps(category, products[|products| - 1]) {
        assert r[..|r| - 1] == FilterCategory(init, category);
      } else {
        assert r == FilterCategory(init, category);
        SubsequenceDropLast(r, products);
      }
    }
  }

  /** The sort key of the price orders: the price text without the rupee sign and
      the first comma, read as a number. */
  function PriceKey(p: Product): int {
    ParsePrice(p.price).GetOr(0)
  }

  /** Lexicographic order on character codes. */
  predicate NameLeq(a: string, b: string) {
    if a == [] then true
    else if b == [] then false
    else if a[0] != b[0] then a[0] < b[0]
    else NameLeq(a[1..], b[1..])
  }

  lemma {:induction false} NameLeqTotal(a: string, b: string)
    ensures NameLeq(a, b) || NameLeq(b, a)
  {
    if a != [] && b != [] && a[0] == b[0] {
      NameLeqTotal(a[1..], b[1..]);
    }
  }

  lemma {:induction false} NameLeqTrans(a: string, b: string, c: string)
    requires NameLeq(a, b) && NameLeq(b, c)
    ensures NameLeq(a, c)
  {
    if a != [] && b != [] && c != [] && a[0] == b[0] && b[0] == c[0] {
      NameLeqTrans(a[1..], b[1..], c[1..]);
    }
  }

  /** Whether `x` may stand before `y` under the order. */
  predicate InOrder(o: SortOrder, x: Product, y: Product) {
    match o
    case ByName => NameLeq(x.name, y.name)
    case PriceLow => PriceKey(x) <= PriceKey(y)
    case PriceHigh => PriceKey(y) <= PriceKey(x)
  }

  /** Each order is total and transitive, so it ranks any two products. */
  lemma InOrderLaws(o: SortOrder, x: Product, y: Product, z: Product)
    ensures InOrder(o, x, y) || InOrder(o, y, x)
    ensures InOrder(o, x, y) && InOrder(o, y, z) ==> InOrder(o, x, z)
  {
    if o == ByName {
      NameLeqTotal(x.name, y.name);
      if NameLeq(x.name, y.name) && NameLeq(y.name, z.name) {
        NameLeqTrans(x.name, y.name, z.name);
      }
    }
  }

  /** Each neighbour stands in order. */
  predicate Sorted(s: seq<Product>, o: SortOrder) {
    forall k :: 0 < k < |s| ==> InOrder(o, s[k - 1], s[k])
  }

  /** In a sorted list every earlier product stands in order with every later one. */
  lemma {:induction false} SortedPairwise(s: seq<Product>, o: SortOrder)
    requires Sorted(s, o)
    ensures forall k, l :: 0 <= k < l < |s| ==> InOrder(o, s[k], s[l])
  {
    if |s| > 1 {
      var init := s[..|s| - 1];
      assert Sorted(init, o);
      SortedPairwise(init, o);
      forall k | 0 <= k < |s| - 1 ensures InOrder(o, s[k], s[|s| - 1]) {
        if k < |s| - 2 {
          assert InOrder(o, s[k], s[|s| - 2]) by { assert init[k] == s[k]; }
          InOrderLaws(o, s[k], s[|s| - 2], s[|s| - 1]);
        }
      }
    }
  }

  /** `Array.prototype.sort` with the page's comparator, as an insertion sort. */
  method SortInPlace(a: array<Product>, o: SortOrder)
    modifies a
    ensures Sorted(a[..], o)
    ensures multiset(a[..]) == multiset(old(a[..]))
  {
    var i := 0;
    while i < a.Length
      invariant 0 <= i <= a.Length
      invariant Sorted(a[..i], o)
      invariant multiset(a[..]) == multiset(old(a[..]))
    {
      Insert(a, i, o);
      i := i + 1;
    }
    assert a[..a.Length] == a[..];
  }

  /** Moves `a[i]` down into the sorted prefix `a[..i]`. */
  method Insert(a: array<Product>, i: int, o: SortOrder)
    requires 0 <= i < a.Length && Sorted(a[..i], o)
    modifies a
    ensures Sorted(a[..i + 1], o)
    ensures multiset(a[..]) == multiset(old(a[..]))
  {
    var j := i;
    while j > 0 && !InOrder(o, a[j - 1], a[j])
      invariant 0 <= j <= i
      invariant InsertInvariant(a[..], i, j, o)
      invariant multiset(a[..]) == multiset(old(a[..]))
    {
      SwapStep(a[..], i, j, o);
      a[j - 1], a[j] := a[j], a[j - 1];
      j := j - 1;
    }
    InsertDone(a[..], i, j, o);
  }

  /** During an insertion at `i` with the moving product at `j`: both sides of `j`
      are sorted, and the products around `j` are in order with each other. */
  predicate InsertInvariant(s: seq<Product>, i: int, j: int, o: SortOrder) {
    && 0 <= j <= i < |s|
    && Sorted(s[..j], o) && Sorted(s[j..i + 1], o)
    && (0 < j < i ==> InOrder(o, s[j - 1], s[j + 1]))
  }

  lemma SwapStep(s: seq<Product>, i: int, j: int, o: SortOrder)
    requires InsertInvariant(s, i, j, o) && j > 0 && !InOrder(o, s[j - 1], s[j])
    ensures InsertInvariant(s[j - 1 := s[j]][j := s[j - 1]], i, j - 1, o)
    ensures multiset(s[j - 1 := s[j]][j := s[j - 1]]) == multiset(s)
  {
    var t := s[j - 1 := s[j]][j := s[j - 1]];
    SwapKeepsPrefix(s, j, o);
    SwapSortsSuffix(s, i, j, o);
    if 0 < j - 1 {
      assert s[..j][j - 2] == s[j - 2] && s[..j][j - 1] == s[j - 1];
    }
    SwapPermutes(s, j);
  }

  lemma SwapKeepsPrefix(s: seq<Product>, j: int, o: SortOrder)
    requires 0 < j < |s| && Sorted(s[..j], o)
    ensures Sorted(s[j - 1 := s[j]][j := s[j - 1]][..j - 1], o)
  {
    var t := s[j - 1 := s[j]][j := s[j - 1]];
    assert t[..j - 1] == s[..j - 1];
    assert forall k :: 0 <= k < j - 1 ==> s[..j][k] == s[k];
  }

  lemma SwapSortsSuffix(s: seq<Product>, i: int, j: int, o: SortOrder)
    requires InsertInvariant(s, i, j, o) && j > 0 && !InOrder(o, s[j - 1], s[j])
    ensures Sorted(s[j - 1 := s[j]][j := s[j - 1]][j - 1..i + 1], o)
  {
    var t := s[j - 1 := s[j]][j := s[j - 1]];
    var u := t[j - 1..i + 1];
    InOrderLaws(o, s[j - 1], s[j], s[j]);
    forall k | 0 < k < |u| ensures InOrder(o, u[k - 1], u[k]) {
      if k == 1 {
        assert u[0] == s[j] && u[1] == s[j - 1];
      } else if k == 2 {
        assert u[1] == s[j - 1] && u[2] == s[j + 1];
      } else {
        assert u[k - 1] == s[j..i + 1][k - 2] && u[k] == s[j..i + 1][k - 1];
      }
    }
  }

  lemma SwapPermutes(s: seq<Product>, j: int)
    requires 0 < j < |s|
    ensures multiset(s[j - 1 := s[j]][j := s[j - 1]]) == multiset(s)
  {
    var t := s[j - 1 := s[j]][j := s[j - 1]];
    assert t == s[..j - 1] + [s[j], s[j - 1]] + s[j + 1..];
    assert s == s[..j - 1] + [s[j - 1], s[j]] + s[j + 1..];
  }

  lemma InsertDone(s: seq<Product>, i: int, j: int, o: SortOrder)
    requires InsertInvariant(s, i, j, o) && (j == 0 || InOrder(o, s[j - 1], s[j]))
    ensures Sorted(s[..i + 1], o)
  {
    forall k | 0 < k < i + 1 ensures InOrder(o, s[k - 1], s[k]) {
      if k < j {
        assert s[..j][k - 1] == s[k - 1] && s[..j][k] == s[k];
      } else if k > j {
        assert s[j..i + 1][k - 1 - j] == s[k - 1] && s[j..i + 1][k - j] == s[k];
      }
    }
  }

  /** `filteredAndSortedProducts`. For 'All' the page sorts the shared catalogue
      array itself and shows it; for any other label it sorts a fresh filtered
      copy and leaves the catalogue alone. Either way the list shown holds
      exactly the kept products, each as often as in the catalogue, in order. */
  method FilteredAndSorted(all: array<Product>, category: string, o: SortOrder) returns (shown: array<Product>)
    modifies all
    ensures category == "All" ==> shown == all
    ensures category != "All" ==> fresh(shown) && all[..] == old(all[..])
    ensures Sorted(shown[..], o)
    ensures multiset(shown[..]) == multiset(FilterCategory(old(all[..]), category))
  {
    if category == "All" {
      FilterCategoryLaws(all[..], category);
      shown := all;
    } else {
      var kept := FilterCategory(all[..], category);
      shown := new Product[|kept|](k requires 0 <= k < |kept| => kept[k]);
      assert shown[..] == kept;
    }
    SortInPlace(shown, o);
  }

  /** The sample request: the ids of the first five products shown. */
  function SampleIds(shown: seq<Product>): (r: seq<string>)
    ensures |r| == Min(5, |shown|)
    ensures forall k :: 0 <= k < |r| ==> r[k] == shown[k].id
  {
    Ids(shown[..Min(5, |shown|)])
  }

  function Ids(products: seq<Product>): (r: seq<string>)
    ensures |r| == |products|
    ensures forall k :: 0 <= k < |r| ==> r[k] == products[k].id
  {
    if products == [] then [] else [products[0].id] + Ids(products[1..])
  }
}
