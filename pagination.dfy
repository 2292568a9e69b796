/**
 * Pagination of the product listing: normalising the parsed `page` and
 * `limit` query values, the row offset of a page, and the page count
 * `Math.ceil(total / limit)` reported back to the client.
 */
module Pagination {
  import opened Wrappers

  const DefaultPage: int := 1
  const DefaultLimit: int := 50

  /**
   * A parsed `page` or `limit`: a value that is NaN (None) or below 1 is
   * replaced by `fallback`, any other value is kept.
   */
  function Normalise(parsed: Option<int>, fallback: int): (n: int)
    requires fallback >= 1
    ensures n >= 1
    ensures n == fallback || parsed == Some(n)
    ensures parsed.Some? && parsed.value >= 1 ==> n == parsed.value
  {
    if parsed.None? || parsed.value < 1 then fallback else parsed.value
  }

  /** Normalising an already normalised value changes nothing. */
  lemma NormaliseIdempotent(parsed: Option<int>, fallback: int)
    requires fallback >= 1
    ensures Normalise(Some(Normalise(parsed, fallback)), fallback) == Normalise(parsed, fallback)
  {
  }

  /** The number of rows skipped before page `page`. */
  function Offset(page: int, limit: int): int
  {
    (page - 1) * limit
  }

  lemma MulNonNegative(a: int, b: int)
    requires a >= 0 && b >= 0
    ensures a * b >= 0
  {
  }

  lemma MulMonotone(a: int, b: int, c: int)
    requires a <= b && c >= 0
    ensures a * c <= b * c
  {
    MulNonNegative(b - a, c);
    assert b * c - a * c == (b - a) * c;
  }

  /**
   * The offset of a normalised page is never negative, is zero exactly on
   * the first page, and consecutive pages are `limit` rows apart.
   */
  lemma OffsetBounds(page: int, limit: int)
    requires page >= 1 && limit >= 1
    ensures Offset(page, limit) >= 0
    ensures Offset(page, limit) == 0 <==> page == 1
    ensures Offset(page + 1, limit) == Offset(page, limit) + limit
  {
    MulNonNegative(page - 1, limit);
    if page > 1 {
      MulMonotone(1, page - 1, limit);
    }
  }

  /** `Math.ceil(total / limit)` on whole numbers. */
  function PageCount(total: nat, limit: int): nat
    requires limit >= 1
  {
    (total + limit - 1) / limit
  }

  /**
   * The page count is the ceiling of `total / limit`: enough pages to hold
   * every row, but not one more; and zero exactly when there are no rows.
   */
  lemma PageCountIsCeiling(total: nat, limit: int)
    requires limit >= 1
    ensures total <= PageCount(total, limit) * limit
    ensures (PageCount(total, limit) - 1) * limit < total
    ensures PageCount(total, limit) == 0 <==> total == 0
  {
    var p := PageCount(total, limit);
    var r := (total + limit - 1) % limit;
    assert total + limit - 1 == p * limit + r;
    assert (p - 1) * limit == p * limit - limit;
  }

  /** The two ceiling conditions single out the page count. */
  lemma PageCountUnique(total: nat, limit: int, n: int)
    requires limit >= 1
    requires total <= n * limit && (n - 1) * limit < total
    ensures n == PageCount(total, limit)
  {
    var p := PageCount(total, limit);
    PageCountIsCeiling(total, limit);
    if n < p {
      MulMonotone(n, p - 1, limit);
    } else if n > p {
      MulMonotone(p, n - 1, limit);
    }
  }

  /**
   * Page `page` holds at least one row exactly when it is not past the last
   * page reported: its offset is below `total` iff `page <= pages`.
   */
  lemma PageNonEmptyIff(page: int, limit: int, total: nat)
    requires page >= 1 && limit >= 1
    ensures Offset(page, limit) < total <==> page <= PageCount(total, limit)
  {
    var p := PageCount(total, limit);
    PageCountIsCeiling(total, limit);
    if page <= p {
      MulMonotone(page - 1, p - 1, limit);
    } else {
      MulMonotone(p, page - 1, limit);
    }
  }
}
