// The paging metadata of list endpoints (lib/helper/pagination.ts).
module Pagination {

  datatype Meta = Meta(currentPage: int, lastPage: int, from: int, to: int,
                       page: int, offset: int, limit: int, total: int)

  /** `Math.ceil(a / b)` for a positive divisor. */
  function CeilDiv(a: int, b: int): (q: int)
    requires b >= 1
    ensures q * b >= a && (q - 1) * b < a
  {
    -((-a) / b)
  }

  /** `MetaPagination(page, limit, total)`. */
  function MetaPagination(page: int, limit: int, total: int): (m: Meta)
    requires limit >= 1
    ensures m.currentPage == page && m.page == page && m.limit == limit && m.total == total
    ensures m.lastPage * limit >= total && (m.lastPage - 1) * limit < total
    ensures m.from == m.offset && m.from == (page - 1) * limit + 1
    ensures m.to <= total && m.to <= page * limit && (m.to == total || m.to == page * limit)
    ensures page * limit <= total ==> m.to - m.from + 1 == limit
  {
    var from := (page - 1) * limit + 1;
    Meta(page, CeilDiv(total, limit), from, if page * limit < total then page * limit else total,
         page, from, limit, total)
  }

  /** A page number is within range exactly when it is at most the last page. */
  lemma LastPageCoversTotal(page: int, limit: int, total: int)
    requires limit >= 1 && page >= 1
    ensures (page - 1) * limit < total <==> page <= MetaPagination(page, limit, total).lastPage
  {
    var last := MetaPagination(page, limit, total).lastPage;
    assert last * limit >= total && (last - 1) * limit < total;
    if page > last {
      MulLe(last, page - 1, limit);
    } else {
      MulLe(page - 1, last - 1, limit);
    }
  }

  lemma MulLe(a: int, b: int, c: int)
    requires a <= b && c >= 0
    ensures a * c <= b * c
  {
    assert b * c - a * c == (b - a) * c;
  }
}
