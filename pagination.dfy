/** The page arithmetic shared by the order list (backend/routes/orders.js) and
    the product list (backend/routes/products.js). */
module Pagination {

  /** `(page - 1) * limit`: the number of records before the page. */
  function Skip(page: int, limit: int): int {
    (page - 1) * limit
  }

  /** `Math.ceil(total / limit)`. */
  function TotalPages(total: nat, limit: int): (r: nat)
    requires limit >= 1
    ensures (r - 1) * limit < total <= r * limit || (r == 0 && total == 0)
  {
    CeilBounds(total, limit);
    (total + limit - 1) / limit
  }

  predicate HasNextPage(page: int, totalPages: int) { page < totalPages }

  predicate HasPrevPage(page: int) { page > 1 }

  lemma CeilBounds(total: nat, limit: int)
    requires limit >= 1
    ensures var c := (total + limit - 1) / limit;
      c >= 0 && c * limit <= total + limit - 1 < c * limit + limit
  {
  }

  lemma MulMonotone(a: int, b: int, l: int)
    requires a <= b && l >= 0
    ensures a * l <= b * l
  {
  }

  /** A page index k (counted from zero) lies before the last page exactly when
      records exist past the first k pages. */
  lemma PagesCoverRecords(k: nat, total: nat, limit: int)
    requires limit >= 1
    ensures k < TotalPages(total, limit) <==> k * limit < total
  {
    var c := TotalPages(total, limit);
    CeilBounds(total, limit);
    if k < c {
      MulMonotone(k, c - 1, limit);
      assert (c - 1) * limit == c * limit - limit;
    } else {
      MulMonotone(c, k, limit);
    }
  }

  /** `hasNextPage` holds exactly when some record lies beyond this page, and a
      page at or below `totalPages` starts inside the records. */
  lemma NextPageMeansMoreRecords(page: int, total: nat, limit: int)
    requires page >= 1 && limit >= 1
    ensures HasNextPage(page, TotalPages(total, limit)) <==> page * limit < total
    ensures page <= TotalPages(total, limit) <==> Skip(page, limit) < total
  {
    PagesCoverRecords(page, total, limit);
    PagesCoverRecords(page - 1, total, limit);
  }

  /** The first page has no previous page and every later one has. */
  lemma PrevPageRule(page: int, limit: int)
    requires page >= 1 && limit >= 1
    ensures HasPrevPage(page) <==> Skip(page, limit) > 0
  {
    if page > 1 { MulMonotone(1, page - 1, limit); }
  }

  lemma PaginationExample()
    ensures TotalPages(41, 20) == 3 && Skip(3, 20) == 40
    ensures !HasNextPage(3, TotalPages(41, 20)) && HasNextPage(2, TotalPages(41, 20))
    ensures TotalPages(0, 20) == 0 && !HasNextPage(1, TotalPages(0, 20))
  {
  }
}
