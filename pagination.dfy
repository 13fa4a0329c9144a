/**
 * The pagination control (`components/common/data/Pagination.jsx`): the page the
 * previous and next buttons request, and when each button is disabled. Pages are
 * integers.
 */
module Pagination {

  /** `prev`: `onPage(Math.max(1, page - 1))`. */
  function Prev(page: int): (p: int)
    ensures p >= 1
    ensures page > 1 ==> p == page - 1
    ensures page <= 1 ==> p == 1
  {
    if page - 1 >= 1 then page - 1 else 1
  }

  /** `next`: `onPage(Math.min(total, page + 1))`. */
  function Next(page: int, total: int): (p: int)
    ensures p <= total
    ensures page < total ==> p == page + 1
    ensures page >= total ==> p == total
  {
    if page + 1 <= total then page + 1 else total
  }

  /** The previous button's `disabled={page <= 1}`. */
  predicate PrevDisabled(page: int) {
    page <= 1
  }

  /** The next button's `disabled={page >= total}`. */
  predicate NextDisabled(page: int, total: int) {
    page >= total
  }

  /** An enabled button always moves exactly one page. */
  lemma EnabledButtonsMoveOnePage(page: int, total: int)
    ensures !PrevDisabled(page) ==> Prev(page) == page - 1
    ensures !NextDisabled(page, total) ==> Next(page, total) == page + 1
  {
  }

  /** A disabled button on a page within range would request the page already shown. */
  lemma DisabledButtonsStay(page: int, total: int)
    requires 1 <= page <= total
    ensures PrevDisabled(page) ==> Prev(page) == page
    ensures NextDisabled(page, total) ==> Next(page, total) == page
  {
  }

  /** From a page within 1..total, both buttons request a page within 1..total. */
  lemma RequestsStayInRange(page: int, total: int)
    requires 1 <= page <= total
    ensures 1 <= Prev(page) <= total
    ensures 1 <= Next(page, total) <= total
  {
  }

  /** Next then previous, or previous then next, returns to an inner page. */
  lemma PrevNextRoundTrip(page: int, total: int)
    ensures 1 <= page < total ==> Prev(Next(page, total)) == page
    ensures 1 < page <= total ==> Next(Prev(page), total) == page
  {
  }
}
