/** The "New Provisions" carousel of components/ProductGrid.tsx: a filter key
    picks a list, and the first eight of it are shown. */
module ProductGrid {
  import opened Basics
  import opened Storefront
  import opened Catalog

  /** The list a filter key selects: the gender filters and ACCESSORIES read the
      whole catalogue, while ALL GOODS and any unknown key use the products the
      carousel was given. */
  function GridSource(filter: string, catalogue: seq<Product>, given: seq<Product>): seq<Product> {
    if filter == "MEN'S" then FilterCategory(catalogue, "Men")
    else if filter == "WOMEN'S" then FilterCategory(catalogue, "Women")
    else if filter == "ACCESSORIES" then FilterCategory(catalogue, "Accessories")
    else given
  }

  /** `getFilteredProducts().slice(0, 8)`. */
  function DisplayProducts(filter: string, catalogue: seq<Product>, given: seq<Product>): (r: seq<Product>)
    ensures |r| <= 8
    ensures |r| == Min(8, |GridSource(filter, catalogue, given)|)
    ensures r == GridSource(filter, catalogue, given)[..|r|]
  {
    var src := GridSource(filter, catalogue, given);
    src[..Min(8, |src|)]
  }

  /** What each key shows: at most eight products, all from the list the key
      names and in its order; a gender key uses the catalogue page's Men or
      Women rule and ACCESSORIES the exact category; any other key shows the
      start of the given products. */
  lemma {:induction false} DisplayLaws(filter: string, catalogue: seq<Product>, given: seq<Product>)
    ensures var r := DisplayProducts(filter, catalogue, given);
      && (filter == "MEN'S" ==> forall p :: p in r ==> p in catalogue && CategoryKeeps("Men", p))
      && (filter == "WOMEN'S" ==> forall p :: p in r ==> p in catalogue && CategoryKeeps("Women", p))
      && (filter == "ACCESSORIES" ==> forall p :: p in r ==> p in catalogue && p.category == "Accessories")
      && (filter in {"MEN'S", "WOMEN'S", "ACCESSORIES"} ==> IsSubsequence(r, catalogue))
      && (filter !in {"MEN'S", "WOMEN'S", "ACCESSORIES"} ==> r == given[..Min(8, |given|)])
  {
    var src := GridSource(filter, catalogue, given);
    var r := DisplayProducts(filter, catalogue, given);
    forall p | p in r ensures p in src {
      var k :| 0 <= k < |r| && r[k] == p;
      assert src[k] == p;
    }
    if filter in {"MEN'S", "WOMEN'S", "ACCESSORIES"} {
      var category := if filter == "MEN'S" then "Men" else if filter == "WOMEN'S" then "Women" else "Accessories";
      assert src == FilterCategory(catalogue, category);
      FilterCategoryIsSubsequence(catalogue, category);
      PrefixIsSubsequence(src, |r|);
      SubsequenceTrans(r, src, catalogue);
    }
  }

  /** A prefix is a subsequence. */
  lemma {:induction false} PrefixIsSubsequence(s: seq<Product>, n: nat)
    requires n <= |s|
    ensures IsSubsequence(s[..n], s)
    decreases |s|
  {
    if n == |s| {
      SubsequenceRefl(s);
      assert s[..n] == s;
    } else {
      PrefixIsSubsequence(s[..|s| - 1], n);
      assert s[..|s| - 1][..n] == s[..n];
      SubsequenceDropLast(s[..n], s);
    }
  }

  lemma {:induction false} SubsequenceRefl(s: seq<Product>)
    ensures IsSubsequence(s, s)
    decreases |s|
  {
    if s != [] {
      SubsequenceRefl(s[..|s| - 1]);
    }
  }

  lemma {:induction false} SubsequenceTrans(a: seq<Product>, b: seq<Product>, c: seq<Product>)
    requires IsSubsequence(a, b) && IsSubsequence(b, c)
    ensures IsSubsequence(a, c)
    decreases |c|
  {
    if a == [] {
      SubsequenceOfEmpty(c);
    } else if b[|b| - 1] == c[|c| - 1] {
      if a[|a| - 1] == b[|b| - 1] {
        SubsequenceTrans(a[..|a| - 1], b[..|b| - 1], c[..|c| - 1]);
      } else {
        SubsequenceTrans(a, b[..|b| - 1], c[..|c| - 1]);
        SubsequenceDropLast(a, c);
      }
    } else {
      SubsequenceTrans(a, b, c[..|c| - 1]);
      SubsequenceDropLast(a, c);
    }
  }
}
