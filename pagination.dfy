/** Page arithmetic shared by the list endpoints. A missing query value is
    `None`; JavaScript's `x || d` replaces a missing value and 0 by `d`. */
module Pagination {
  import opened Wrappers

  const DEFAULT_LIMIT: int := 10
  const MAX_LIMIT: int := 100

  datatype PaginationOptions = PaginationOptions(page: Option<int>, limit: Option<int>)

  datatype PaginationParams = PaginationParams(skip: int, take: int)

  datatype PaginationMeta = PaginationMeta(
    total: int, page: int, limit: int, totalPages: int,
    hasNextPage: bool, hasPreviousPage: bool)

  datatype PaginatedResult<T> = PaginatedResult(data: seq<T>, meta: PaginationMeta)

  function Max(a: int, b: int): int { if a >= b then a else b }
  function Min(a: int, b: int): int { if a <= b then a else b }

  /** `x || d` on an optional number. */
  function OrDefault(x: Option<int>, d: int): (r: int)
    ensures x.None? || x.value == 0 ==> r == d
    ensures x.Some? && x.value != 0 ==> r == x.value
  {
    if x.Some? && x.value != 0 then x.value else d
  }

  /** `Math.max(1, options.page || 1)`. */
  function PageOf(options: PaginationOptions): (page: int)
    ensures page >= 1
    ensures options.page.None? || options.page.value <= 0 ==> page == 1
    ensures options.page.Some? && options.page.value >= 1 ==> page == options.page.value
  {
    Max(1, OrDefault(options.page, 1))
  }

  /** `Math.min(100, Math.max(1, options.limit || 10))`. */
  function LimitOf(options: PaginationOptions): (limit: int)
    ensures 1 <= limit <= MAX_LIMIT
    ensures options.limit.None? || options.limit.value == 0 ==> limit == DEFAULT_LIMIT
    ensures options.limit.Some? && options.limit.value < 0 ==> limit == 1
    ensures options.limit.Some? && 1 <= options.limit.value <= MAX_LIMIT ==> limit == options.limit.value
    ensures options.limit.Some? && options.limit.value > MAX_LIMIT ==> limit == MAX_LIMIT
  {
    Min(MAX_LIMIT, Max(1, OrDefault(options.limit, DEFAULT_LIMIT)))
  }

  /** `Math.ceil(a / b)` for a positive divisor; Dafny's division by a
      positive number rounds down. */
  function CeilDiv(a: int, b: int): (q: int)
    requires b > 0
    ensures (q - 1) * b < a <= q * b
  {
    -((-a) / b)
  }

  /** `getPaginationParams`. */
  function GetPaginationParams(options: PaginationOptions): (r: PaginationParams)
    ensures r.take == LimitOf(options) && 1 <= r.take <= MAX_LIMIT
    ensures r.skip >= 0 && r.skip % r.take == 0
    ensures r.skip / r.take + 1 == PageOf(options)
  {
    var page := PageOf(options);
    var limit := LimitOf(options);
    WholePages(page - 1, limit);
    PaginationParams((page - 1) * limit, limit)
  }

  /** `n` whole pages of `size` items: a non-negative multiple of `size`. */
  lemma WholePages(n: int, size: int)
    requires n >= 0 && size > 0
    ensures n * size >= 0 && (n * size) % size == 0 && (n * size) / size == n
  {
    var k, r := (n * size) / size, (n * size) % size;
    assert (n - k) * size == r by {
      assert n * size == k * size + r;
      assert (n - k) * size == n * size - k * size;
    }
    if n - k >= 1 {
      MulMonotone(1, n - k, size);
    } else if n - k <= -1 {
      MulMonotone(n - k, -1, size);
    }
  }

  lemma MulMonotone(a: int, b: int, c: int)
    requires a <= b && c > 0
    ensures a * c <= b * c
  {
    assert b * c - a * c == (b - a) * c;
  }

  /** `createPaginatedResult`. */
  function CreatePaginatedResult<T>(data: seq<T>, total: int, options: PaginationOptions): (r: PaginatedResult<T>)
    ensures r.data == data && r.meta.total == total
    ensures r.meta.page == PageOf(options) && r.meta.limit == LimitOf(options)
  {
    var page := PageOf(options);
    var limit := LimitOf(options);
    var totalPages := CeilDiv(total, limit);
    PaginatedResult(data, PaginationMeta(total, page, limit, totalPages, page < totalPages, page > 1))
  }

  /** The meta block: there is a next page exactly when the current page
      ends before the last item, a previous page exactly when this is not
      the first, and an empty listing has neither a next page nor any page. */
  lemma PaginationMetaMeaning<T>(data: seq<T>, total: int, options: PaginationOptions)
    ensures var m := CreatePaginatedResult(data, total, options).meta;
      && (m.hasNextPage <==> m.page * m.limit < total)
      && (m.hasPreviousPage <==> m.page > 1)
      && (total == 0 ==> m.totalPages == 0 && !m.hasNextPage)
      && (total >= 0 ==> m.totalPages >= 0)
  {
    var m := CreatePaginatedResult(data, total, options).meta;
    var page, limit, q := m.page, m.limit, m.totalPages;
    if page < q {
      MulMonotone(page, q - 1, limit);
    } else {
      MulMonotone(q, page, limit);
    }
    if total == 0 {
      if q > 0 {
        MulMonotone(1, q, limit);
      } else if q < 0 {
        MulMonotone(q, -1, limit);
      }
    }
    if total >= 0 && q < 0 {
      MulMonotone(q, -1, limit);
    }
  }

  /** The listing window and the meta block describe the same page: the
      first item shown is number `skip`, and `skip` is `(page - 1) * limit`. */
  lemma ParamsAgreeWithMeta<T>(data: seq<T>, total: int, options: PaginationOptions)
    ensures var p := GetPaginationParams(options);
      var m := CreatePaginatedResult(data, total, options).meta;
      p.take == m.limit && p.skip == (m.page - 1) * m.limit
  {
  }
}
