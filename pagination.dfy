/** The page arithmetic of `GET /api/admin/visitors`: `parseInt(...) || default`,
    `skip = (page - 1) * limit` and `Math.ceil(total / limit)`. */
module Pagination {
  import opened Common

  /** `parseInt(q) || d`, with `parseInt`'s result as input (None is NaN): NaN and 0 give the default. */
  function OrDefault(parsed: Option<int>, default: int): int {
    if parsed.None? || parsed.value == 0 then default else parsed.value
  }

  const DefaultPage: int := 1
  const DefaultLimit: int := 20

  function Skip(page: int, limit: int): int {
    (page - 1) * limit
  }

  /** `Math.ceil(a / b)` on integers, for a divisor of either sign. */
  function CeilDiv(a: int, b: int): (r: int)
    requires b != 0
    ensures b > 0 ==> (r - 1) * b < a <= r * b
    ensures b < 0 ==> r * b <= a < (r - 1) * b
  {
    if b > 0 then
      var q := (-a) / b;
      assert b * q <= -a < b * q + b;
      -q
    else
      var q := a / (-b);
      assert (-b) * q <= a < (-b) * q - b;
      -q
  }

  datatype Page<T> = Page(data: seq<T>, currentPage: int, totalPages: int, totalItems: nat)

  /** How many documents a window of `limit` holds when `available` remain past the skip:
      a zero limit means no limit, a negative one asks for `-limit` documents. */
  function WindowSize(available: int, limit: int): nat {
    var wanted := if limit < 0 then -limit else limit;
    if available <= 0 then 0
    else if limit == 0 || available < wanted then available
    else wanted
  }

  /** `find().skip(skip).limit(limit)` on the sorted collection. The store refuses a negative skip. */
  function Window<T>(items: seq<T>, skip: int, limit: int): (r: Option<seq<T>>)
    ensures r.None? <==> skip < 0
    ensures r.Some? ==> |r.value| == WindowSize(|items| - skip, limit)
    ensures r.Some? ==> forall k :: 0 <= k < |r.value| ==> skip + k < |items| && r.value[k] == items[skip + k]
  {
    if skip < 0 then None
    else
      var count := if limit == 0 then |items| else if limit < 0 then -limit else limit;
      var lo := if skip < |items| then skip else |items|;
      var hi := if skip + count < |items| then skip + count else |items|;
      Some(items[lo..hi])
  }

  /** The visitors route given its collection in sort order and the parsed query parameters:
      None when the store refuses the query. The page holds the documents from position
      `(page - 1) * limit` on, as many as the limit allows; `currentPage` is the parsed page and
      `totalPages` is `Math.ceil(total / limit)`. */
  function Paginate<T>(items: seq<T>, pageQuery: Option<int>, limitQuery: Option<int>): (r: Option<Page<T>>)
    ensures var page := OrDefault(pageQuery, DefaultPage); var limit := OrDefault(limitQuery, DefaultLimit);
      && limit != 0
      && (r.None? <==> Skip(page, limit) < 0)
      && (r.Some? ==>
            && r.value.currentPage == page
            && r.value.totalPages == CeilDiv(|items|, limit)
            && r.value.totalItems == |items|
            && |r.value.data| == WindowSize(|items| - Skip(page, limit), limit)
            && forall k :: 0 <= k < |r.value.data| ==>
                 0 <= Skip(page, limit) + k < |items| && r.value.data[k] == items[Skip(page, limit) + k])
  {
    var page := OrDefault(pageQuery, DefaultPage);
    var limit := OrDefault(limitQuery, DefaultLimit);
    match Window(items, Skip(page, limit), limit)
    case None => None
    case Some(data) => Some(Page(data, page, CeilDiv(|items|, limit), |items|))
  }

  lemma MulMonotone(x: int, y: int, c: int)
    requires x <= y && c >= 0
    ensures x * c <= y * c
  {
  }

  /** With a positive limit, `totalPages` counts exactly the non-empty pages: pages 1 to
      `totalPages` start inside the collection and the page after the last starts past its end. */
  lemma {:induction false} TotalPagesAreTheNonEmptyPages(total: nat, limit: int, page: int)
    requires limit >= 1
    ensures 1 <= page <= CeilDiv(total, limit) ==> 0 <= Skip(page, limit) < total
    ensures page > CeilDiv(total, limit) ==> Skip(page, limit) >= total
    ensures total == 0 <==> CeilDiv(total, limit) == 0
  {
    var t := CeilDiv(total, limit);
    if 1 <= page <= t {
      MulMonotone(page - 1, t - 1, limit);
      MulMonotone(0, page - 1, limit);
    }
    if page > t {
      MulMonotone(t, page - 1, limit);
    }
    if t <= 0 {
      MulMonotone(t, 0, limit);
    } else {
      MulMonotone(0, t - 1, limit);
    }
  }

  /** The defaults: no or zero query parameters give page 1 of 20. */
  lemma DefaultsApply(items: seq<int>)
    ensures var r := Paginate(items, None, Some(0));
      r.Some? && r.value.currentPage == 1 && r.value.data == items[..if |items| < 20 then |items| else 20]
  {
  }
}
