/**
 * The listing views of the review backend: the paginated newest-first list
 * (`review_list`), the per-freelancer and per-user lists
 * (`freelancer_reviews`, `user_reviews`) and the search endpoint
 * (`sort_and_filter_reviews`), over an in-memory snapshot of the store.
 */
module Views {
  import opened Wrappers
  import opened Reviews
  import opened Ordering
  import opened Pagination
  import opened SortTokens

  /** The JSON body of the list and search responses. */
  datatype Envelope = Envelope(reviews: seq<Review>, total: nat, page: nat, perPage: nat, totalPages: nat)

  /** Why a per-entity listing fails: the entity does not exist (HTTP 404). */
  datatype ViewError = NotFound

  /**
   * The `try`/`except` around `paginator.page(page)`: a value that is not an
   * integer falls back to page 1, an integer out of range falls back to the
   * last page, and either way the result is a real page of the paginator.
   */
  function ResolvePage<T>(paginator: Paginator<T>, number: PageParam): (page: Page<T>)
    ensures 1 <= page.number <= paginator.PageCount()
    ensures number.NotAnInt? ==> page.number == 1
    ensures number.Int? && 1 <= number.n <= paginator.PageCount() ==> page.number == number.n
    ensures number.Int? && (number.n < 1 || number.n > paginator.PageCount()) ==> page.number == paginator.PageCount()
    ensures paginator.GetPage(Int(page.number)) == Success(page)
  {
    match paginator.GetPage(number)
    case Success(p) => p
    case Failure(PageNotAnInteger) => paginator.GetPage(Int(1)).value
    case Failure(EmptyPage) => paginator.GetPage(Int(paginator.PageCount())).value
  }

  /** A page of an ordered list is ordered and holds only items of the list. */
  lemma PageOfOrdered(paginator: Paginator<Review>, keys: seq<SortKey>, n: nat)
    requires SortedBy(paginator.objectList, keys)
    requires 1 <= n <= paginator.PageCount()
    ensures SortedBy(paginator.GetPage(Int(n)).value.objectList, keys)
    ensures multiset(paginator.GetPage(Int(n)).value.objectList) <= multiset(paginator.objectList)
  {
    var page := paginator.GetPage(Int(n)).value.objectList;
    var b := paginator.Bottom(n);
    SortedBySlice(paginator.objectList, keys, b, b + |page|);
    paginator.PageIsPart(n);
  }

  /**
   * `review_list` (GET): all reviews newest first, cut into pages; the
   * envelope carries the resolved page, the page size as requested, and the
   * count and page count of the whole list.
   */
  function ReviewList(all: seq<Review>, number: PageParam, perPage: PageSize): (env: Envelope)
    ensures env.total == |all| && env.perPage == perPage
    ensures env.totalPages == NumPages(|all|, perPage)
    ensures 1 <= env.page <= env.totalPages
    ensures env.page == ResolvePage(Paginator(all, perPage), number).number
    ensures |env.reviews| <= perPage
    ensures multiset(env.reviews) <= multiset(all)
    ensures SortedBy(env.reviews, [DateDesc])
    ensures var ordered := OrderBy(all, [DateDesc]);
      Paginator(ordered, perPage).GetPage(Int(env.page)) == Success(Page(env.reviews, env.page))
  {
    var reviews := OrderBy(all, [DateDesc]);
    assert |reviews| == |multiset(reviews)| == |all|;
    var paginator := Paginator(reviews, perPage);
    var page := ResolvePage(paginator, number);
    PageOfOrdered(paginator, [DateDesc], page.number);
    Envelope(page.objectList, paginator.Count(), page.number, perPage, paginator.PageCount())
  }

  /** An empty store lists as a single empty page, whatever page is asked for. */
  lemma EmptyReviewList(number: PageParam, perPage: PageSize)
    ensures ReviewList([], number, perPage) == Envelope([], 0, 1, perPage, 1)
  {
  }

  /**
   * `freelancer_reviews` and `user_reviews`: 404 when the entity is not in
   * `known` (the ids the store holds for that kind of entity), otherwise
   * exactly its reviews, newest first.
   */
  function OwnerReviews(all: seq<Review>, known: set<nat>, owner: Owner): (r: Result<seq<Review>, ViewError>)
    ensures r.Failure? <==> owner.id !in known
    ensures r.Success? ==> SortedBy(r.value, [DateDesc])
    ensures r.Success? ==> forall x :: x in r.value <==> x in all && BelongsTo(x, owner)
    ensures r.Success? ==> forall x :: BelongsTo(x, owner) ==> multiset(r.value)[x] == multiset(all)[x]
  {
    if owner.id !in known then Failure(NotFound)
    else
      var mine := ReviewsOf(all, owner);
      var r := OrderBy(mine, [DateDesc]);
      assert forall x :: x in r <==> x in multiset(mine);
      Success(r)
  }

  /** The reviews the search keeps: those of the freelancer asked for, or all of them. */
  function SearchMatches(all: seq<Review>, freelancer: Option<nat>): (r: seq<Review>)
    ensures freelancer.None? ==> r == all
    ensures freelancer.Some? ==> forall x :: x in r <==> x in all && x.freelancer == freelancer.value
  {
    if freelancer.Some? then ReviewsOf(all, Freelancer(freelancer.value)) else all
  }

  /**
   * What `sort_and_filter_reviews` answers. The pagination figures are those
   * of ALL reviews, computed before the filter; `reviews` is the whole
   * filtered list, a rearrangement of the matches ordered by the resolved
   * sort fields, or the matches in their original order when none resolve.
   */
  ghost predicate SearchResponse(all: seq<Review>, number: PageParam, perPage: PageSize,
                                 freelancer: Option<nat>, sortBy: seq<string>, env: Envelope)
  {
    var matches := SearchMatches(all, freelancer);
    var fields := ResolveSortFields(sortBy);
    && env.total == |all|
    && env.totalPages == NumPages(|all|, perPage)
    && env.page == ResolvePage(Paginator(all, perPage), number).number
    && env.perPage == perPage
    && multiset(env.reviews) == multiset(matches)
    && SortedBy(env.reviews, fields)
    && (fields == [] ==> env.reviews == matches)
  }

  /** `sort_and_filter_reviews` (GET), step by step as the view does it. */
  method SortAndFilterReviews(all: seq<Review>, number: PageParam, perPage: PageSize,
                              freelancer: Option<nat>, sortBy: seq<string>) returns (env: Envelope)
    ensures SearchResponse(all, number, perPage, freelancer, sortBy, env)
  {
    var paginator := Paginator(all, perPage);

    var reviewsPage: Page<Review>;
    var attempt := paginator.GetPage(number);
    if attempt.Success? {
      reviewsPage := attempt.value;
    } else if attempt.error == PageNotAnInteger {
      reviewsPage := paginator.GetPage(Int(1)).value;
    } else {
      reviewsPage := paginator.GetPage(Int(paginator.PageCount())).value;
    }

    var reviews := all;
    if freelancer.Some? {
      reviews := ReviewsOf(reviews, Freelancer(freelancer.value));
    }

    if sortBy != [] {
      var sortFields: seq<SortKey> := [];
      if RatingHighToLow in sortBy {
        sortFields := sortFields + [RatingDesc];
      } else if RatingLowToHigh in sortBy {
        sortFields := sortFields + [RatingAsc];
      }
      if DateNewestFirst in sortBy {
        sortFields := sortFields + [DateDesc];
      } else if DateOldestFirst in sortBy {
        sortFields := sortFields + [DateAsc];
      }
      assert sortFields == ResolveSortFields(sortBy);
      if sortFields != [] {
        reviews := OrderBy(reviews, sortFields);
      }
    }

    env := Envelope(reviews, paginator.Count(), reviewsPage.number, perPage, paginator.PageCount());
  }

  /**
   * The search answer is not one page: with one review per page and two of
   * three reviews by freelancer 1, asking for page 1 of freelancer 1's
   * reviews returns both of them, and reports three reviews on three pages.
   */
  lemma SearchIgnoresPaging(env: Envelope)
    requires SearchResponse(
      [Review(1, 1, 1, 5, 10), Review(2, 2, 1, 4, 11), Review(3, 1, 2, 3, 12)],
      Int(1), 1, Some(1), [], env)
    ensures |env.reviews| == 2 > env.perPage
    ensures env.total == 3 && env.totalPages == 3
  {
    var all := [Review(1, 1, 1, 5, 10), Review(2, 2, 1, 4, 11), Review(3, 1, 2, 3, 12)];
    assert all[1..][1..] == [Review(3, 1, 2, 3, 12)];
    assert ReviewsOf(all, Freelancer(1)) == [Review(1, 1, 1, 5, 10), Review(3, 1, 2, 3, 12)];
  }

  /**
   * The search as its comment says it should behave: filter, then order,
   * then paginate the result, so the envelope describes the pages of the
   * matches and `reviews` is one of them.
   */
  function PagedSearch(all: seq<Review>, number: PageParam, perPage: PageSize,
                       freelancer: Option<nat>, sortBy: seq<string>): (env: Envelope)
    ensures var matches := SearchMatches(all, freelancer);
      && env.total == |matches|
      && env.totalPages == NumPages(|matches|, perPage)
      && 1 <= env.page <= env.totalPages
      && env.page == ResolvePage(Paginator(matches, perPage), number).number
      && env.perPage == perPage
      && |env.reviews| <= perPage
      && multiset(env.reviews) <= multiset(matches)
      && SortedBy(env.reviews, ResolveSortFields(sortBy))
    ensures var matches := SearchMatches(all, freelancer);
      var fields := ResolveSortFields(sortBy);
      var ordered := if fields == [] then matches else OrderBy(matches, fields);
      Paginator(ordered, perPage).GetPage(Int(env.page)) == Success(Page(env.reviews, env.page))
  {
    var matches := SearchMatches(all, freelancer);
    var fields := ResolveSortFields(sortBy);
    var ordered := if fields == [] then matches else OrderBy(matches, fields);
    assert |ordered| == |multiset(ordered)| == |matches|;
    var paginator := Paginator(ordered, perPage);
    var page := ResolvePage(paginator, number);
    PageOfOrdered(paginator, fields, page.number);
    Envelope(page.objectList, paginator.Count(), page.number, perPage, paginator.PageCount())
  }

  /** Reading the corrected search page by page gives back every match exactly once. */
  lemma PagedSearchCoversMatches(all: seq<Review>, perPage: PageSize, freelancer: Option<nat>, sortBy: seq<string>)
    ensures var matches := SearchMatches(all, freelancer);
      var fields := ResolveSortFields(sortBy);
      var ordered := if fields == [] then matches else OrderBy(matches, fields);
      && (forall n :: 1 <= n <= NumPages(|matches|, perPage) ==>
            PagedSearch(all, Int(n), perPage, freelancer, sortBy).reviews ==
            Paginator(ordered, perPage).GetPage(Int(n)).value.objectList)
      && Paginator(ordered, perPage).PagesFrom(1) == ordered
      && multiset(ordered) == multiset(matches)
  {
    var matches := SearchMatches(all, freelancer);
    var fields := ResolveSortFields(sortBy);
    var ordered := if fields == [] then matches else OrderBy(matches, fields);
    Paginator(ordered, perPage).AllPages();
  }
}
