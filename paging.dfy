/** The pagination arithmetic shared by the list endpoints. */
module Paging {

  /** What a list endpoint answers: the rows its filters select (before LIMIT/OFFSET),
      their count, the OFFSET of the requested page and the number of pages. */
  datatype Listing<K, T> = Listing(rows: map<K, T>, total: nat, offset: int, totalPages: nat)

  /** `(page - 1) * limit`, the OFFSET of a 1-based page. */
  function Offset(page: int, limit: int): int {
    (page - 1) * limit
  }

  /** `Math.ceil(total / limit)`: the fewest pages of `limit` rows that hold `total` rows. */
  function TotalPages(total: nat, limit: int): (n: nat)
    requires limit > 0
    ensures n * limit >= total
    ensures n > 0 ==> (n - 1) * limit < total
  {
    var n := (total + limit - 1) / limit;
    assert n * limit + (total + limit - 1) % limit == total + limit - 1;
    n
  }

  lemma MulMonotone(a: int, b: int, limit: int)
    requires a <= b && limit > 0
    ensures a * limit <= b * limit
  {
  }

  /** A page number lies between 1 and TotalPages exactly when its OFFSET points
      at one of the `total` rows. */
  lemma PageInRange(total: nat, page: int, limit: int)
    requires limit > 0
    ensures 1 <= page <= TotalPages(total, limit) <==> 0 <= Offset(page, limit) < total
  {
    var n := TotalPages(total, limit);
    if 1 <= page <= n {
      MulMonotone(0, page - 1, limit);
      MulMonotone(page - 1, n - 1, limit);
    }
    if 0 <= Offset(page, limit) < total {
      if page < 1 {
        MulMonotone(page - 1, -1, limit);
      }
      if page > n {
        MulMonotone(n, page - 1, limit);
      }
    }
  }
}
