/**
 * The page arithmetic of Django's `Paginator`, as the views use it: no
 * orphans and an empty first page allowed. A requested page is validated
 * (`PageNotAnInteger`, `EmptyPage`) and then sliced out of the ordered list.
 */
module Pagination {
  import opened Wrappers

  /** A page size; the views hand the paginator a positive one. */
  type PageSize = p: nat | p > 0 witness 1

  /** The `page` query parameter after `int()`: it either parsed to an integer or it did not. */
  datatype PageParam = NotAnInt | Int(n: int)

  /** The two exceptions `Paginator.page` raises. */
  datatype PageError = PageNotAnInteger | EmptyPage

  /** A page: its slice of the list and its 1-based number. */
  datatype Page<T> = Page(objectList: seq<T>, number: nat)

  lemma MulMonotone(a: nat, b: nat, p: nat)
    requires a <= b
    ensures a * p <= b * p
  {
  }

  /**
   * `num_pages`: the number of pages of `perPage` items needed to hold
   * `count` items, at least one even when there is nothing to show.
   */
  function NumPages(count: nat, perPage: PageSize): (r: nat)
    ensures r >= 1
    ensures count == 0 ==> r == 1
    ensures count > 0 ==> (r - 1) * perPage < count <= r * perPage
  {
    if count == 0 then 1
    else
      var q := (count - 1) / perPage;
      assert q * perPage + (count - 1) % perPage == count - 1;
      assert (q + 1) * perPage == q * perPage + perPage;
      q + 1
  }

  datatype Paginator<T> = Paginator(objectList: seq<T>, perPage: PageSize) {

    function Count(): nat {
      |objectList|
    }

    function PageCount(): (r: nat)
      ensures r >= 1
    {
      NumPages(Count(), perPage)
    }

    /** Index of the first item on page `n`. */
    function Bottom(n: nat): nat
      requires 1 <= n
    {
      (n - 1) * perPage
    }

    /**
     * `validate_number`: a value that is not an integer is
     * `PageNotAnInteger`; an integer below 1 or above the page count is
     * `EmptyPage`; any other integer is accepted as it is.
     */
    function ValidateNumber(number: PageParam): (r: Result<nat, PageError>)
      ensures r == Failure(PageNotAnInteger) <==> number.NotAnInt?
      ensures r == Failure(EmptyPage) <==> number.Int? && (number.n < 1 || number.n > PageCount())
      ensures r.Success? ==> number == Int(r.value) && 1 <= r.value <= PageCount()
    {
      match number
      case NotAnInt => Failure(PageNotAnInteger)
      case Int(n) =>
        if n < 1 then Failure(EmptyPage)
        else if n > PageCount() then Failure(EmptyPage)
        else Success(n)
    }

    /**
     * `page(number)`: fails exactly as `ValidateNumber` does; otherwise page
     * `n` is the run of at most `perPage` items starting at `(n - 1) * perPage`,
     * full on every page but the last, and the last one reaches the end of
     * the list.
     */
    function GetPage(number: PageParam): (r: Result<Page<T>, PageError>)
      ensures ValidateNumber(number).Failure? ==> r == Failure(ValidateNumber(number).error)
      ensures ValidateNumber(number).Success? ==>
        var n := ValidateNumber(number).value;
        && r.Success?
        && r.value.number == n
        && |r.value.objectList| <= perPage
        && Bottom(n) + |r.value.objectList| <= Count()
        && r.value.objectList == objectList[Bottom(n)..Bottom(n) + |r.value.objectList|]
        && (n < PageCount() ==> |r.value.objectList| == perPage)
        && (n == PageCount() ==> Bottom(n) + |r.value.objectList| == Count())
    {
      match ValidateNumber(number)
      case Failure(e) => Failure(e)
      case Success(n) =>
        PageBounds(n);
        var bottom := Bottom(n);
        var top := if bottom + perPage >= Count() then Count() else bottom + perPage;
        Success(Page(objectList[bottom..top], n))
    }

    /** Where page `n` starts and ends, for every page that exists. */
    lemma PageBounds(n: nat)
      requires 1 <= n <= PageCount()
      ensures Bottom(n) <= Count()
      ensures n < PageCount() ==> Bottom(n) + perPage < Count()
      ensures n == PageCount() ==> Count() <= Bottom(n) + perPage
    {
      var c := PageCount();
      if Count() == 0 {
        assert n == 1;
      } else {
        MulMonotone(n, c, perPage);
        assert n * perPage == Bottom(n) + perPage;
        assert c * perPage == (c - 1) * perPage + perPage;
        if n < c {
          MulMonotone(n, c - 1, perPage);
        }
      }
    }

    /** Every page holds items of the list and no others. */
    lemma PageIsPart(n: nat)
      requires 1 <= n <= PageCount()
      ensures multiset(GetPage(Int(n)).value.objectList) <= multiset(objectList)
    {
      var page := GetPage(Int(n)).value.objectList;
      var b := Bottom(n);
      assert objectList == objectList[..b] + page + objectList[b + |page|..];
      assert multiset(objectList) == multiset(objectList[..b]) + multiset(page) + multiset(objectList[b + |page|..]);
    }

    /** What pages `k`, `k + 1`, ..., `PageCount()` hold, one after another. */
    function PagesFrom(k: nat): seq<T>
      requires 1 <= k
      decreases PageCount() + 1 - k
    {
      if k > PageCount() then []
      else GetPage(Int(k)).value.objectList + PagesFrom(k + 1)
    }

    lemma {:induction false} PagesFromIsSuffix(k: nat)
      requires 1 <= k <= PageCount() + 1
      ensures k <= PageCount() ==> PagesFrom(k) == objectList[Bottom(k)..]
      ensures k > PageCount() ==> PagesFrom(k) == []
      decreases PageCount() + 1 - k
    {
      if k <= PageCount() {
        PageBounds(k);
        PagesFromIsSuffix(k + 1);
        var page := GetPage(Int(k)).value.objectList;
        if k < PageCount() {
          assert Bottom(k + 1) == Bottom(k) + perPage;
          assert objectList[Bottom(k)..] == page + objectList[Bottom(k + 1)..];
        } else {
          assert objectList[Bottom(k)..] == page;
        }
      }
    }

    /**
     * Reading pages `1..PageCount()` in turn gives back the whole list,
     * each item exactly once and in its order, and no page is longer than
     * `perPage`.
     */
    lemma AllPages()
      ensures PagesFrom(1) == objectList
      ensures forall n :: 1 <= n <= PageCount() ==> |GetPage(Int(n)).value.objectList| <= perPage
    {
      PagesFromIsSuffix(1);
      assert Bottom(1) == 0;
    }
  }
}
