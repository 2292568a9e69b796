/**
 * Sort resolution of the product listing: the `sortBy` and `order` query
 * values are resolved through fixed allow-lists, so the column and the
 * direction placed in the `ORDER BY` clause are always one of a few
 * constants.
 */
module Sorting {

  /** The columns the listing may be ordered by. */
  const ValidSortFields: seq<string> := ["name", "price", "rating", "created_at"]

  /** The directions the listing may be ordered in. */
  const ValidOrders: seq<string> := ["ASC", "DESC"]

  datatype Sort = Sort(field: string, direction: string)

  /** `String.prototype.toUpperCase` on one character, for ASCII letters. */
  function UpperChar(c: char): (u: char)
  {
    if 'a' <= c <= 'z' then (c as int - 'a' as int + 'A' as int) as char else c
  }

  /** `String.prototype.toUpperCase`, ASCII letters only. */
  function Upper(s: string): (u: string)
    ensures |u| == |s|
    ensures forall i :: 0 <= i < |s| ==> u[i] == UpperChar(s[i])
  {
    seq(|s|, i requires 0 <= i < |s| => UpperChar(s[i]))
  }

  /** An `order` value names a direction when it is non-empty and upper-cases to ASC or DESC. */
  predicate OrderNamesDirection(order: string)
  {
    order != "" && Upper(order) in ValidOrders
  }

  /**
   * The sort the handler places in the query, for the `sortBy` and `order`
   * values after their defaults (`name`, `ASC`) are applied. In order of
   * precedence: `price_desc` is price descending and `price` is price
   * ascending, whatever `order` says; any other value orders by itself when
   * it is an allowed column and by `name` when it is not, in the direction
   * `order` names, ascending when it names none.
   */
  function ResolveSort(sortBy: string, order: string): (s: Sort)
    ensures s.field in ValidSortFields
    ensures s.direction in ValidOrders
  {
    if sortBy == "price_desc" then Sort("price", "DESC")
    else if sortBy == "price" then Sort("price", "ASC")
    else
      Sort(if sortBy in ValidSortFields then sortBy else "name",
           if OrderNamesDirection(order) then Upper(order) else "ASC")
  }

  /** The two price tokens fix the direction; `order` is ignored for them. */
  lemma PriceTokensIgnoreOrder(order: string)
    ensures ResolveSort("price_desc", order) == Sort("price", "DESC")
    ensures ResolveSort("price", order) == Sort("price", "ASC")
  {
  }

  /**
   * The column is `sortBy` itself exactly when it is allowed and is not the
   * synthetic `price_desc`; otherwise `price_desc` gives `price` and any
   * other value gives `name`.
   */
  lemma FieldFromAllowList(sortBy: string, order: string)
    ensures sortBy != "price_desc" ==>
              (ResolveSort(sortBy, order).field == sortBy <==> sortBy in ValidSortFields)
    ensures sortBy != "price_desc" && sortBy !in ValidSortFields ==>
              ResolveSort(sortBy, order).field == "name"
  {
  }

  /**
   * Descending order is chosen exactly for `price_desc`, or for a token
   * other than the two price tokens together with an `order` that
   * upper-cases to DESC.
   */
  lemma DescendingIff(sortBy: string, order: string)
    ensures ResolveSort(sortBy, order).direction == "DESC" <==>
              sortBy == "price_desc" || (sortBy != "price" && order != "" && Upper(order) == "DESC")
  {
  }

  /** `order` is read case-insensitively: only its upper-cased form matters. */
  lemma OrderCaseInsensitive(sortBy: string, order1: string, order2: string)
    requires Upper(order1) == Upper(order2)
    ensures ResolveSort(sortBy, order1) == ResolveSort(sortBy, order2)
  {
    assert |order1| == |Upper(order1)| == |order2|;
  }

  /** `s` spells the same word as `lower`/`upper`, each letter in either case. */
  predicate SpelledAnyCase(s: string, lower: string, upper: string)
  {
    |s| == |lower| == |upper| && forall i :: 0 <= i < |s| ==> s[i] == lower[i] || s[i] == upper[i]
  }

  /**
   * For a `sortBy` other than the two price tokens, the direction is DESC
   * exactly when `order` is `desc` in any mix of letter cases, and an
   * `order` of `asc` in any case gives ASC.
   */
  lemma DirectionAnyCase(sortBy: string, order: string)
    requires sortBy != "price" && sortBy != "price_desc"
    ensures ResolveSort(sortBy, order).direction == "DESC" <==> SpelledAnyCase(order, "desc", "DESC")
    ensures SpelledAnyCase(order, "asc", "ASC") ==> ResolveSort(sortBy, order).direction == "ASC"
  {
    if SpelledAnyCase(order, "desc", "DESC") {
      assert Upper(order) == "DESC";
    }
    if ResolveSort(sortBy, order).direction == "DESC" {
      assert Upper(order) == "DESC";
      assert forall i :: 0 <= i < 4 ==> UpperChar(order[i]) == "DESC"[i];
    }
  }

  /** No allowed column or direction holds a `?`, so neither adds a placeholder. */
  lemma AllowListsHoldNoMark(s: Sort)
    requires s.field in ValidSortFields && s.direction in ValidOrders
    ensures '?' !in s.field && '?' !in s.direction
  {
  }
}
