# LancerRank review query engine, in Dafny

LancerRank's backend stores freelancers, users and the reviews users leave
for freelancers. Its one piece of real logic is in
`src/trust_pilot_backend/views.py`. It lists reviews newest first, one page
at a time. It lists the reviews of one freelancer or one user. It also
serves a search endpoint that filters by freelancer and sorts by rating
and/or date. This project models that logic over an in-memory snapshot of
the record store and proves what it computes.

- `wrappers.dfy`, module `Wrappers`: `Option` and `Result`.
- `reviews.dfy`, module `Reviews`: the `Review` record (dates as ordinals)
  and the per-entity filter behind `filter(freelancer=id)` and `filter(user=id)`.
- `ordering.dfy`, module `Ordering`: the four `order_by` fields (`-rating`,
  `rating`, `-date`, `date`) and the lexicographic order they induce.
  `OrderBy` is a sort that stands in for the store's `order_by`. Its
  contract says the result is ordered and is a rearrangement of the input.
  Being a function, it also fixes one order among ties (see "## Left out").
- `pagination.dfy`, module `Pagination`: Django's `Paginator` as the views
  use it, with no orphans and an empty first page allowed. It covers
  `num_pages`, `validate_number` (`PageNotAnInteger`, `EmptyPage`) and
  `page(n)`. That library is not part of this model's source, so its
  documented behaviour is written out directly.
- `sort_tokens.dfy`, module `SortTokens`: how the `sort_by` tokens become
  `order_by` fields.
- `views.dfy`, module `Views`: the page fallback of the `try`/`except`
  blocks, `review_list`, `freelancer_reviews`/`user_reviews`, and
  `sort_and_filter_reviews`. That last view is a method that builds its
  result step by step, like the view.

The search envelope is modelled as the code builds it, not as its comment
intends. The paginator runs over all reviews before the filter. `total` and
`totalPages` count all reviews. `reviews` is the whole filtered and sorted
list, not one page. See "## Findings".

Three behaviours of the code that a reader might not expect:
- A page number of 0 or below raises `EmptyPage`, so it resolves to the
  *last* page, not to page 1. This is `Views.ResolvePage`.
- A search with no recognised `sort_by` token keeps the store's order. It is
  not sorted newest first.
- Ties among equal sort keys are left to the store's `order_by`, which does
  not promise a stable order. The search contract states only "ordered by
  the keys and a rearrangement of the input".

## Model

| member | source | states |
|---|---|---|
| `Reviews.ReviewsOf` | src/trust_pilot_backend/views.py:196-200 | every kept review belongs to the owner; every review of the owner is kept, with its multiplicity; nothing else is kept |
| `Reviews.ReviewsOfAppend` | src/trust_pilot_backend/views.py:199-200 | filtering commutes with concatenation, so the filter keeps the relative order of what it keeps |
| `Reviews.ReviewsOfAllMatching` | src/trust_pilot_backend/views.py:199-200 | a list whose reviews all belong to the owner passes the filter unchanged |
| `Ordering.InOrderTotal` | src/trust_pilot_backend/views.py:216-217 | any two reviews are comparable under a multi-key ordering |
| `Ordering.InOrderTransitive` | src/trust_pilot_backend/views.py:216-217 | the multi-key ordering is transitive |
| `Ordering.Insert` | src/trust_pilot_backend/views.py:217 | inserting into an ordered list keeps it ordered and adds exactly that review |
| `Ordering.OrderBy` | src/trust_pilot_backend/views.py:217 | `order_by(*fields)` returns a rearrangement of its input, ordered lexicographically by the fields |
| `Ordering.SortedBySlice` | src/trust_pilot_backend/views.py:28-35 | any contiguous part, such as a page, of an ordered list is ordered |
| `Ordering.TwoKeyOrder` | src/trust_pilot_backend/views.py:216-217 | ordering by a rating field and then a date field: rating never goes the wrong way, and among equal ratings the date never does |
| `Pagination.NumPages` | src/trust_pilot_backend/views.py:52 | the page count is the ceiling of count / perPage, and 1 when there are no reviews |
| `Pagination.Paginator.ValidateNumber` | src/trust_pilot_backend/views.py:34-41 | a non-integer page is `PageNotAnInteger`; an integer below 1 or above the page count is `EmptyPage`; any other integer is accepted unchanged |
| `Pagination.Paginator.GetPage` | src/trust_pilot_backend/views.py:35 | fails exactly as validation does; page n starts at (n-1)*perPage, holds at most perPage items, is full unless it is the last page, and the last page reaches the end |
| `Pagination.Paginator.PageBounds` | src/trust_pilot_backend/views.py:35 | every page that exists starts inside the list, and only the last page may run to its end |
| `Pagination.Paginator.PageIsPart` | src/trust_pilot_backend/views.py:35 | a page holds only items of the list |
| `Pagination.Paginator.PagesFromIsSuffix` | src/trust_pilot_backend/views.py:31-35 | pages k through the last, read in turn, are exactly the list from page k's first item on |
| `Pagination.Paginator.AllPages` | src/trust_pilot_backend/views.py:31-35 | pages 1 through the page count, read in turn, rebuild the list exactly; no page is longer than perPage |
| `SortTokens.ResolveSortFields` | src/trust_pilot_backend/views.py:203-213 | at most one rating field then at most one date field; `-rating` exactly when `rating_high_to_low` is given; `rating` exactly when only `rating_low_to_high` is; likewise for dates; no field exactly when no recognised token is given |
| `SortTokens.ResolveSortFieldsIgnoresOrder` | src/trust_pilot_backend/views.py:204-213 | the resolved fields depend only on which tokens occur, not on their order or repetition |
| `SortTokens.LowToHighNewestFirst` | src/trust_pilot_backend/views.py:208-217 | `rating_low_to_high` with `date_newest_first` orders by ascending rating, with rating ties newest first |
| `SortTokens.BothRatingTokensDescend` | src/trust_pilot_backend/views.py:206-209 | with both rating tokens given, the ratings descend |
| `Views.PageOfOrdered` | src/trust_pilot_backend/views.py:28-35 | a page of an ordered list is ordered and holds only items of that list |
| `Views.ResolvePage` | src/trust_pilot_backend/views.py:34-41 | a non-integer page gives page 1; an in-range page is kept; an out-of-range page gives the last page; the result is always a real page numbered 1..page count |
| `Views.ReviewList` | src/trust_pilot_backend/views.py:22-53 | the page is the one `ResolvePage` gives for the requested number (out of range gives the last page, not an integer gives page 1); the envelope holds that page of the newest-first list, at most perPage reviews drawn from the store and ordered newest first; total is the number of reviews, perPage echoes the request, and the page lies in 1..totalPages |
| `Views.EmptyReviewList` | src/trust_pilot_backend/views.py:26-52 | an empty store lists as page 1 of 1 with no reviews, whatever page is asked for |
| `Views.OwnerReviews` | src/trust_pilot_backend/views.py:152-172 | 404 exactly when the freelancer or user is unknown; otherwise exactly that entity's reviews, with their multiplicities, ordered newest first |
| `Views.SortAndFilterReviews` | src/trust_pilot_backend/views.py:176-227 | total and totalPages are those of all reviews; page is the resolved page of the unfiltered paginator; reviews is a rearrangement of the matches ordered by the resolved fields, or the matches unchanged when no field resolves |
| `Views.SearchIgnoresPaging` | src/trust_pilot_backend/views.py:182-227 | on a concrete store, the search returns more reviews than perPage and reports totals that ignore the filter |
| `Views.SearchMatches` | src/trust_pilot_backend/views.py:196-200 | without a freelancer parameter every review matches; with one, a review matches exactly when it has that freelancer id |
| `Views.PagedSearch` | src/trust_pilot_backend/views.py:178-191 | corrected search: the page is the one `ResolvePage` gives for the requested number over the matches, fallbacks included, and `reviews` is exactly that page's slice of the ordered matches; at most perPage reviews, drawn from the matches and ordered by the resolved fields; total and totalPages count the matches |
| `Views.PagedSearchCoversMatches` | src/trust_pilot_backend/views.py:178-191 | the corrected search's pages, read in turn, give back every match exactly once |

## Left out

- The HTTP layer (`api_view`, `Response`, status codes, `request.query_params`) and `home_view`. The views are modelled as functions and a method over parsed parameters.
- Parsing the `page` parameter. Python's `int()` is abstracted as `PageParam`: `Int(n)` when the text parses, `NotAnInt` otherwise. An absent `page` defaults to 1 (views.py:22, 179), which the caller passes as `Int(1)`.
- The raw `perPage` value. An absent `perPage` defaults to 10 (views.py:23, 180), which the caller passes as 10. The view echoes the request string, and the model echoes the positive integer Django derives from it (`PageSize`). A non-numeric, zero or negative page size makes Django raise an uncaught exception: a non-numeric one when the paginator is built, a zero or negative one when `paginator.page` divides by it or slices with it (views.py:35, 187). Those requests end in a server error, so the type excludes them.
- A non-integer `freelancer` value. Django raises on it when filtering. The model's `Option<nat>` covers an absent or empty parameter (`None`, no filter) and a non-negative integer id. A negative id, such as `freelancer=-1`, filters without error and gives an empty list. The model cannot express it because ids are `nat`.
- Serializers. Records are taken as already-decoded `Review` values, and the free-text content is omitted.
- The CRUD handlers `review_details`, `freelancer_list`, `freelancer_details`, `user_list`, `user_details` and the POST branch of `review_list`. They are store calls without logic. One inconsistency: `user_details` answers 400 for a missing user, where the other handlers answer 404.
- The record store. It is represented by a sequence of reviews and, for the per-entity listings, the set of known ids. Uniqueness of names, the 120/70 length limits and the cascading deletes of migration 0009 are database constraints, not code.
- The order among reviews with equal sort keys. The store's `order_by` does not fix it, but `OrderBy` is a function, so the model fixes one tie order per snapshot. `Views.ReviewList` and `Views.PagedSearchCoversMatches` cut every page from that one ordered list. The store answers each page request with its own query, and those queries need not agree on the order of ties between requests. `Views.SortAndFilterReviews` and `Views.OwnerReviews` promise only "ordered and a rearrangement", so they leave tie order open.

## Findings

| source | as written | input that shows it | evidently intended | confidence | as-written member | corrected member |
|---|---|---|---|---|---|---|
| src/trust_pilot_backend/views.py:182-227 | the paginator runs over all reviews before filtering; `reviews` is the whole filtered, sorted list; `total`/`totalPages` count the unfiltered reviews | reviews by freelancers 1, 2, 1, perPage 1, page 1, freelancer 1: two reviews come back while total 3 and totalPages 3 are reported | filter, sort, then paginate, so the search is "displayed in the exact same way" as the plain list (comment at line 178) | likely; not executed | `Views.SortAndFilterReviews`, `Views.SearchIgnoresPaging` | `Views.PagedSearch` |
