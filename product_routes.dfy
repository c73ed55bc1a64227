/** The pure parts of backend/routes/products.js: the validated page and limit
    parameters with their defaults, the pagination block of the list and
    category routes, and the category and tag suggestions. Query strings are
    taken as already parsed integers (`None` when absent); the database queries
    themselves are not part of this model, so the tags of the products the tag
    query found are passed in. */
module ProductRoutes {
  import opened Basics
  import opened Pagination

  /** The categories both the `category` validators and the suggestion list name. */
  const ProductCategories := ["schools", "healthcare", "corporate", "accessories", "men", "women"]

  /** The `pagination` block of a list response. */
  datatype PageInfo = PageInfo(currentPage: int, limit: int, skip: int, totalPages: nat,
                               hasNextPage: bool, hasPrevPage: bool)

  /** The page of `total` records numbered `page`, `limit` to a page. */
  function PageOf(page: int, limit: int, total: nat): (r: PageInfo)
    requires page >= 1 && limit >= 1
    ensures r.currentPage == page && r.limit == limit
    ensures r.hasNextPage <==> page * limit < total
    ensures r.hasPrevPage <==> r.skip > 0
    ensures r.skip < total <==> page <= r.totalPages
    ensures r.skip >= 0 && r.totalPages * limit >= total
  {
    NextPageMeansMoreRecords(page, total, limit);
    PrevPageRule(page, limit);
    var tp := TotalPages(total, limit);
    PageInfo(page, limit, Skip(page, limit), tp, HasNextPage(page, tp), HasPrevPage(page))
  }

  /** `isInt({ min: 1 })` on the page and `isInt({ min: 1, max: maxLimit })` on the
      limit, both optional. */
  predicate PageParamsValid(page: Option<int>, limit: Option<int>, maxLimit: int) {
    && (page.None? || page.value >= 1)
    && (limit.None? || 1 <= limit.value <= maxLimit)
  }

  /** No filter parameter given. */
  const NoFilters := ListFilters(None, None, None, None, None)

  /** The sort options the `sortBy` validator accepts. */
  const SortOptions := ["relevance", "price-low", "price-high", "newest", "popular", "rating"]

  /** The optional filter parameters of GET /, each `None` when absent; prices
      arrive as numbers. */
  datatype ListFilters = ListFilters(category: Option<string>, search: Option<string>,
                                     minPrice: Option<real>, maxPrice: Option<real>,
                                     sortBy: Option<string>)

  /** The filter validators of GET /: a known category, a search of 1 to 100
      characters once trimmed, non-negative prices and a known sort option. */
  predicate FiltersValid(f: ListFilters) {
    && (f.category.None? || f.category.value in ProductCategories)
    && (f.search.None? || 1 <= |Trim(f.search.value)| <= 100)
    && (f.minPrice.None? || f.minPrice.value >= 0.0)
    && (f.maxPrice.None? || f.maxPrice.value >= 0.0)
    && (f.sortBy.None? || f.sortBy.value in SortOptions)
  }

  /** GET /: a page of `total` matching products, or `None` for the 400 answer
      when any validator fails. An absent page means the first and an absent
      limit means twenty. */
  function ListPage(filters: ListFilters, page: Option<int>, limit: Option<int>, total: nat): (r: Option<PageInfo>)
    ensures r.Some? <==> FiltersValid(filters) && PageParamsValid(page, limit, 50)
    ensures r.Some? ==> && 1 <= r.value.limit <= 50 && r.value.currentPage >= 1
                        && (page.None? ==> r.value.currentPage == 1 && !r.value.hasPrevPage)
                        && (page.Some? ==> r.value.currentPage == page.value)
                        && (limit.None? ==> r.value.limit == 20)
                        && (limit.Some? ==> r.value.limit == limit.value)
  {
    if FiltersValid(filters) && PageParamsValid(page, limit, 50) then
      Some(PageOf(page.GetOr(1), limit.GetOr(20), total))
    else None
  }

  /** Each filter validator on its own turns the list request into the 400 answer. */
  lemma ListFilterRejections()
    ensures ListPage(NoFilters.(category := Some("kids")), None, None, 45).None?
    ensures ListPage(NoFilters.(search := Some(" ")), None, None, 45).None?
    ensures ListPage(NoFilters.(minPrice := Some(-1.0)), None, None, 45).None?
    ensures ListPage(NoFilters.(maxPrice := Some(-0.5)), None, None, 45).None?
    ensures ListPage(NoFilters.(sortBy := Some("cheap")), None, None, 45).None?
  {
    assert ListPage(NoFilters.(category := Some("kids")), None, None, 45).None? by {
      assert "kids" != ProductCategories[0] && "kids" != ProductCategories[1] && "kids" != ProductCategories[2];
      assert "kids" != ProductCategories[3] && "kids" != ProductCategories[4] && "kids" != ProductCategories[5];
    }
    assert ListPage(NoFilters.(search := Some(" ")), None, None, 45).None? by {
      assert Trim(" ") == "";
    }
    assert ListPage(NoFilters.(sortBy := Some("cheap")), None, None, 45).None? by {
      assert "cheap" != SortOptions[0] && "cheap" != SortOptions[1] && "cheap" != SortOptions[2];
      assert "cheap" != SortOptions[3] && "cheap" != SortOptions[4] && "cheap" != SortOptions[5];
    }
  }

  /** GET /categories/:category: the same page rules behind a category check;
      `parseInt(...) || default` only falls back when the parameter is absent,
      since a valid one is never 0. */
  function CategoryPage(category: string, page: Option<int>, limit: Option<int>, total: nat): (r: Option<PageInfo>)
    ensures r.Some? <==> category in ProductCategories && PageParamsValid(page, limit, 50)
    ensures r.Some? ==> r == ListPage(NoFilters, page, limit, total)
  {
    if category in ProductCategories && PageParamsValid(page, limit, 50) then
      Some(PageOf(page.GetOr(1), limit.GetOr(20), total))
    else None
  }

  /** GET /featured and GET /bestsellers: `parseInt(limit) || 10` behind a 1..20
      validator, `None` for the 400 answer. */
  function FeaturedLimit(limit: Option<int>): (r: Option<int>)
    ensures r.Some? <==> limit.None? || 1 <= limit.value <= 20
    ensures r.Some? ==> 1 <= r.value <= 20
    ensures limit.None? ==> r == Some(10)
    ensures limit.Some? && r.Some? ==> r.value == limit.value
  {
    match limit
    case None => Some(10)
    case Some(l) => if 1 <= l <= 20 then Some(if l != 0 then l else 10) else None
  }

  lemma PageExamples()
    ensures ListPage(NoFilters, None, None, 45) == Some(PageInfo(1, 20, 0, 3, true, false))
    ensures ListPage(NoFilters, Some(3), None, 45) == Some(PageInfo(3, 20, 40, 3, false, true))
    ensures ListPage(NoFilters, Some(0), None, 45).None? && ListPage(NoFilters, None, Some(51), 45).None?
    ensures CategoryPage("kids", None, None, 45).None?
  {
  }

  // ---------------------------------------------------------------------------
  // Suggestions

  /** The suggestion query: trimmed, then 1..50 characters, else the 400 answer. */
  function SuggestionQuery(q: string): (r: Option<string>)
    ensures r.Some? <==> 1 <= |Trim(q)| <= 50
    ensures r.Some? ==> r.value == Trim(q)
  {
    var t := Trim(q);
    if 1 <= |t| <= 50 then Some(t) else None
  }

  /** `.filter(x => x.toLowerCase().includes(q.toLowerCase()))`. */
  function Matching(xs: seq<string>, q: string): (r: seq<string>)
    ensures forall x :: x in r <==> x in xs && ContainsIgnoreCase(x, q)
  {
    if xs == [] then []
    else if ContainsIgnoreCase(xs[0], q) then [xs[0]] + Matching(xs[1..], q)
    else Matching(xs[1..], q)
  }

  /** The category suggestions: the fixed categories whose name contains the query,
      whatever its case. */
  function CategorySuggestions(q: string): (r: seq<string>)
    ensures forall c :: c in r <==> c in ProductCategories && ContainsIgnoreCase(c, q)
  {
    Matching(ProductCategories, q)
  }

  /** The suggestions keep list order. */
  lemma {:induction false} MatchingIsSubsequence(xs: seq<string>, q: string)
    ensures IsSubsequence(Matching(xs, q), xs)
  {
    if xs != [] {
      assert xs == [xs[0]] + xs[1..];
      MatchingIsSubsequence(xs[1..], q);
      var rest := Matching(xs[1..], q);
      if ContainsIgnoreCase(xs[0], q) {
        ConsSubsequence(xs[0], rest, xs[1..]);
      } else {
        SubsequenceCons(xs[0], rest, xs[1..]);
      }
    }
  }

  /** Prepending the same element to both sides keeps a subsequence. */
  lemma {:induction false} ConsSubsequence<T>(x: T, a: seq<T>, b: seq<T>)
    requires IsSubsequence(a, b)
    ensures IsSubsequence([x] + a, [x] + b)
    decreases |b|
  {
    if a == [] {
      SubsequenceOfEmpty(b);
      assert IsSubsequence([x], [x]) by {
        assert [x][..0] == [];
        SubsequenceOfEmpty<T>([]);
      }
      SubsequenceLift([x], [x], b);
      assert [x] + a == [x];
    } else {
      var xa, xb := [x] + a, [x] + b;
      assert xa[..|xa| - 1] == [x] + a[..|a| - 1];
      assert xb[..|xb| - 1] == [x] + b[..|b| - 1];
      if a[|a| - 1] == b[|b| - 1] {
        ConsSubsequence(x, a[..|a| - 1], b[..|b| - 1]);
      } else {
        ConsSubsequence(x, a, b[..|b| - 1]);
      }
    }
  }

  /** A subsequence of `m` is one of `m + b`. */
  lemma {:induction false} SubsequenceLift<T>(a: seq<T>, m: seq<T>, b: seq<T>)
    requires IsSubsequence(a, m)
    ensures IsSubsequence(a, m + b)
    decreases |b|
  {
    if b == [] {
      assert m + b == m;
    } else {
      SubsequenceLift(a, m, b[..|b| - 1]);
      assert (m + b)[..|m + b| - 1] == m + b[..|b| - 1];
      SubsequenceDropLast(a, m + b);
    }
  }

  /** Prepending to the larger side keeps a subsequence. */
  lemma {:induction false} SubsequenceCons<T>(x: T, a: seq<T>, b: seq<T>)
    requires IsSubsequence(a, b)
    ensures IsSubsequence(a, [x] + b)
    decreases |b|
  {
    if a == [] {
      SubsequenceOfEmpty([x] + b);
    } else {
      var xb := [x] + b;
      assert xb[..|xb| - 1] == [x] + b[..|b| - 1];
      if a[|a| - 1] == b[|b| - 1] {
        SubsequenceCons(x, a[..|a| - 1], b[..|b| - 1]);
      } else {
        SubsequenceCons(x, a, b[..|b| - 1]);
      }
    }
  }

  /** Because "men" is part of "women", a query for men suggests both. */
  lemma MenSuggestsWomen()
    ensures "men" in CategorySuggestions("Men") && "women" in CategorySuggestions("Men")
  {
    MenInBothNames();
    assert ProductCategories[4] == "men" && ProductCategories[5] == "women";
  }

  lemma MenInBothNames()
    ensures ContainsIgnoreCase("men", "Men") && ContainsIgnoreCase("women", "Men")
  {
    assert Lower("Men") == "men";
    assert Lower("men") == "men";
    assert Lower("women") == "women";
    assert OccursAt("men", "men", 0);
    assert OccursAt("women", "men", 2);
  }

  // ---------------------------------------------------------------------------
  // Tag suggestions

  /** The position of the first `x` in `s`. */
  function FirstIndex(s: seq<string>, x: string): (r: nat)
    requires x in s
    ensures r < |s| && s[r] == x && x !in s[..r]
  {
    if s[0] == x then 0 else 1 + FirstIndex(s[1..], x)
  }

  /** Elements in the order of their first occurrence in `s`. */
  predicate FirstOccurrenceOrder(r: seq<string>, s: seq<string>) {
    && (forall x :: x in r ==> x in s)
    && (forall i, j :: 0 <= i < j < |r| ==> FirstIndex(s, r[i]) < FirstIndex(s, r[j]))
  }

  /** `[...new Set(s)]`: each element once, at its first occurrence. */
  function Dedupe(s: seq<string>): (r: seq<string>)
    ensures forall x :: x in r <==> x in s
  {
    if s == [] then []
    else
      var d := Dedupe(s[..|s| - 1]);
      if s[|s| - 1] in d then d else d + [s[|s| - 1]]
  }

  /** Any position holding the first `x` is the one `FirstIndex` finds. */
  lemma FirstIndexUnique(s: seq<string>, x: string, i: nat)
    requires i < |s| && s[i] == x && x !in s[..i]
    ensures FirstIndex(s, x) == i
  {
    var k := FirstIndex(s, x);
    assert forall j :: 0 <= j < i ==> s[..i][j] == s[j];
    assert forall j :: 0 <= j < k ==> s[..k][j] == s[j];
  }

  lemma FirstIndexExtend(s: seq<string>, last: string, x: string)
    requires x in s + [last]
    ensures x in s ==> FirstIndex(s + [last], x) == FirstIndex(s, x)
    ensures x !in s ==> FirstIndex(s + [last], x) == |s|
  {
    var s' := s + [last];
    if x in s {
      var m := FirstIndex(s, x);
      assert s'[..m] == s[..m];
      FirstIndexUnique(s', x, m);
    } else {
      assert s'[..|s|] == s;
      FirstIndexUnique(s', x, |s|);
    }
  }

  /** The de-duplicated sequence is duplicate free and in first-occurrence order. */
  lemma {:induction false} DedupeOrder(s: seq<string>)
    ensures FirstOccurrenceOrder(Dedupe(s), s)
  {
    if s != [] {
      var init, last := s[..|s| - 1], s[|s| - 1];
      assert s == init + [last];
      DedupeOrder(init);
      var d := Dedupe(init);
      var r := Dedupe(s);
      forall x | x in d ensures FirstIndex(s, x) == FirstIndex(init, x) && FirstIndex(init, x) < |init| {
        FirstIndexExtend(init, last, x);
      }
      if last !in d {
        FirstIndexExtend(init, last, last);
        assert r == d + [last];
        forall i, j | 0 <= i < j < |r| ensures FirstIndex(s, r[i]) < FirstIndex(s, r[j]) {
          assert r[i] in d;
        }
      }
    }
  }

  /** Order of first occurrence implies no element appears twice. */
  lemma OrderedIsDistinct(r: seq<string>, s: seq<string>)
    requires FirstOccurrenceOrder(r, s)
    ensures forall i, j :: 0 <= i < j < |r| ==> r[i] != r[j]
  {
  }

  /** Filtering keeps the relative order of first occurrences. */
  lemma {:induction false} MatchingKeepsOrder(tags: seq<string>, q: string, x: string, y: string)
    requires x in Matching(tags, q) && y in Matching(tags, q)
    requires FirstIndex(Matching(tags, q), x) < FirstIndex(Matching(tags, q), y)
    ensures FirstIndex(tags, x) < FirstIndex(tags, y)
  {
    var m := Matching(tags, q);
    var rest := Matching(tags[1..], q);
    if ContainsIgnoreCase(tags[0], q) {
      assert m == [tags[0]] + rest;
      if x != tags[0] {
        assert y != tags[0];
        assert m[1..] == rest;
        MatchingKeepsOrder(tags[1..], q, x, y);
      }
    } else {
      MatchingKeepsOrder(tags[1..], q, x, y);
    }
  }

  /** The tag suggestions: the distinct tags containing the query, whatever its
      case, in order of first appearance, at most five. */
  function TagSuggestions(tags: seq<string>, q: string): (r: seq<string>)
    ensures |r| <= 5
    ensures forall t :: t in r ==> t in tags && ContainsIgnoreCase(t, q)
  {
    var d := Dedupe(Matching(tags, q));
    d[..Min(5, |d|)]
  }

  /** Everything `TagSuggestions` promises: distinct matches in order of first
      appearance among the tags, and all of them unless five came first. */
  lemma {:induction false} TagSuggestionsSpec(tags: seq<string>, q: string)
    ensures var r := TagSuggestions(tags, q);
      && FirstOccurrenceOrder(r, tags)
      && (forall i, j :: 0 <= i < j < |r| ==> r[i] != r[j])
      && (|r| < 5 ==> forall t :: t in tags && ContainsIgnoreCase(t, q) ==> t in r)
      && (forall t :: t in tags && ContainsIgnoreCase(t, q) && t !in r ==>
            |r| == 5 && forall i :: 0 <= i < |r| ==> FirstIndex(tags, r[i]) < FirstIndex(tags, t))
  {
    var r := TagSuggestions(tags, q);
    TagSuggestionsOrdered(tags, q);
    OrderedIsDistinct(r, tags);
    forall t | t in tags && ContainsIgnoreCase(t, q) && t !in r
      ensures |r| == 5 && forall i :: 0 <= i < |r| ==> FirstIndex(tags, r[i]) < FirstIndex(tags, t)
    {
      TagSuggestionsCutOff(tags, q, t);
    }
  }

  /** The suggestions come in order of first appearance among the tags. */
  lemma TagSuggestionsOrdered(tags: seq<string>, q: string)
    ensures FirstOccurrenceOrder(TagSuggestions(tags, q), tags)
  {
    var m := Matching(tags, q);
    var d := Dedupe(m);
    var r := TagSuggestions(tags, q);
    DedupeOrder(m);
    assert r == d[..Min(5, |d|)];
    forall i, j | 0 <= i < j < |r| ensures FirstIndex(tags, r[i]) < FirstIndex(tags, r[j]) {
      assert r[i] == d[i] && r[j] == d[j];
      MatchingKeepsOrder(tags, q, r[i], r[j]);
    }
  }

  /** A matching tag left out was cut off by five earlier ones. */
  lemma TagSuggestionsCutOff(tags: seq<string>, q: string, t: string)
    requires t in tags && ContainsIgnoreCase(t, q) && t !in TagSuggestions(tags, q)
    ensures var r := TagSuggestions(tags, q);
      |r| == 5 && forall i :: 0 <= i < |r| ==> FirstIndex(tags, r[i]) < FirstIndex(tags, t)
  {
    var m := Matching(tags, q);
    var d := Dedupe(m);
    var r := TagSuggestions(tags, q);
    DedupeOrder(m);
    assert r == d[..Min(5, |d|)];
    assert t in d;
    var k :| 0 <= k < |d| && d[k] == t;
    assert k >= |r|;
    forall i | 0 <= i < |r| ensures FirstIndex(tags, r[i]) < FirstIndex(tags, t) {
      assert r[i] == d[i];
      MatchingKeepsOrder(tags, q, d[i], d[k]);
    }
  }
}
