/**
 * The shop's pagination: a window of `itemsPerPage` products starting at `itemOffset`,
 * the page count shown by the pager, the offset a page click selects, and the
 * "Products from … to … of …" label. The shop passes 12 items per page.
 */
module Pagination {

  const ShopItemsPerPage: int := 12

  function Min(a: int, b: int): int { if a <= b then a else b }

  /** `itemOffset + itemsPerPage` */
  function EndOffset(offset: nat, itemsPerPage: nat): nat
  {
    offset + itemsPerPage
  }

  /** `products.slice(itemOffset, endOffset)`: both bounds clamped to the length. */
  function CurrentItems<T>(products: seq<T>, offset: nat, itemsPerPage: nat): (page: seq<T>)
    ensures |page| <= itemsPerPage
    ensures offset < |products| ==> |page| == Min(EndOffset(offset, itemsPerPage), |products|) - offset
    ensures forall k :: 0 <= k < |page| ==> offset + k < |products| && page[k] == products[offset + k]
  {
    var lo := Min(offset, |products|);
    var hi := Min(EndOffset(offset, itemsPerPage), |products|);
    products[lo..hi]
  }

  /** `Math.ceil(products.length / itemsPerPage)` */
  function PageCount(length: nat, itemsPerPage: nat): nat
    requires itemsPerPage > 0
  {
    if length % itemsPerPage == 0 then length / itemsPerPage else length / itemsPerPage + 1
  }

  /** The page count is the least number of full-size pages that holds every product. */
  lemma PageCountIsCeiling(length: nat, itemsPerPage: nat)
    requires itemsPerPage > 0
    ensures length <= PageCount(length, itemsPerPage) * itemsPerPage
    ensures PageCount(length, itemsPerPage) > 0 ==> (PageCount(length, itemsPerPage) - 1) * itemsPerPage < length
    ensures PageCount(length, itemsPerPage) == 0 <==> length == 0
  {
    var q, r := length / itemsPerPage, length % itemsPerPage;
    assert length == q * itemsPerPage + r;
    if r != 0 {
      assert (q + 1) * itemsPerPage == q * itemsPerPage + itemsPerPage;
    }
  }

  /** `(event.selected * itemsPerPage) % products.length`; the empty list never reaches it. */
  function OffsetAfterClick(selected: nat, itemsPerPage: nat, length: nat): (offset: nat)
    requires length > 0
    ensures offset < length
  {
    (selected * itemsPerPage) % length
  }

  /** A click on a page the pager offers lands on the first product of that page. */
  lemma ClickOnOfferedPage(selected: nat, itemsPerPage: nat, length: nat)
    requires itemsPerPage > 0 && length > 0
    requires selected < PageCount(length, itemsPerPage)
    ensures OffsetAfterClick(selected, itemsPerPage, length) == selected * itemsPerPage
  {
    var pc := PageCount(length, itemsPerPage);
    PageCountIsCeiling(length, itemsPerPage);
    MultiplyMonotone(selected, pc - 1, itemsPerPage);
    ModOfSmaller(selected * itemsPerPage, length);
  }

  lemma ModOfSmaller(x: nat, n: nat)
    requires x < n
    ensures x % n == x
  {
  }

  lemma MultiplyMonotone(a: nat, b: nat, c: nat)
    requires a <= b
    ensures a * c <= b * c
  {
    assert b * c == a * c + (b - a) * c;
  }

  /** The first number of the label as written: the stored start, with 0 shown as 1. */
  function LabelStart(itemStart: int): int
  {
    if itemStart == 0 then 1 else itemStart
  }

  /** `Math.min(endOffset, products.length)`: the last number of the label. */
  function LabelEnd(offset: nat, itemsPerPage: nat, length: nat): nat
  {
    Min(EndOffset(offset, itemsPerPage), length)
  }

  /** The 1-based position of the first product on the page. */
  function FirstShown(offset: nat): (position: nat)
    ensures position >= 1
  {
    offset + 1
  }

  /**
   * The label as written disagrees with the products on screen: after clicking the
   * second page of 24 products, the page holds products 13 to 24 but the label starts at 12.
   */
  lemma LabelStartOffByOne()
    ensures OffsetAfterClick(1, ShopItemsPerPage, 24) == 12
    ensures LabelStart(OffsetAfterClick(1, ShopItemsPerPage, 24)) == 12
    ensures FirstShown(OffsetAfterClick(1, ShopItemsPerPage, 24)) == 13
  {
  }

  /**
   * With the 1-based start, the label's range covers exactly the products on the page:
   * it starts at the first one's position and spans as many numbers as there are products.
   */
  lemma LabelMatchesPage<T>(products: seq<T>, offset: nat, itemsPerPage: nat)
    requires offset < |products| && itemsPerPage > 0
    ensures CurrentItems(products, offset, itemsPerPage) != []
    ensures CurrentItems(products, offset, itemsPerPage)[0] == products[FirstShown(offset) - 1]
    ensures LabelEnd(offset, itemsPerPage, |products|) - FirstShown(offset) + 1 == |CurrentItems(products, offset, itemsPerPage)|
    ensures LabelEnd(offset, itemsPerPage, |products|) <= |products|
  {
    var page := CurrentItems(products, offset, itemsPerPage);
    assert |page| == LabelEnd(offset, itemsPerPage, |products|) - offset;
  }

  /** The component's own state: `itemOffset` and `itemStart`. */
  class Pager {
    var itemOffset: nat
    var itemStart: nat

    constructor ()
      ensures itemOffset == 0 && itemStart == 1
    {
      itemOffset, itemStart := 0, 1;
    }

    /** `handlePageClick`: both pieces of state take the new offset. */
    method HandlePageClick(selected: nat, itemsPerPage: nat, length: nat)
      requires length > 0
      modifies this
      ensures itemOffset == OffsetAfterClick(selected, itemsPerPage, length) && itemStart == itemOffset
      ensures itemOffset < length
    {
      var newOffset := (selected * itemsPerPage) % length;
      itemOffset := newOffset;
      itemStart := newOffset;
    }

    /** The label's range, counted from 1: first and last position of the products on the page. */
    function Range(itemsPerPage: nat, length: nat): (nat, nat)
      reads this
    {
      (FirstShown(itemOffset), LabelEnd(itemOffset, itemsPerPage, length))
    }
  }
}
