/**
 * Review records as the record store hands them to the views, and the
 * per-entity filters `filter(freelancer=id)` and `filter(user=id)`.
 */
module Reviews {

  /**
   * A review: its own id, the ids of the freelancer it is about and of the
   * user who wrote it, a rating and a date. Dates are ordinals: a larger
   * value is a later day. The free-text content plays no part in any query.
   */
  datatype Review = Review(id: nat, freelancer: nat, user: nat, rating: int, date: int)

  /** The entity whose reviews a listing asks for. */
  datatype Owner = Freelancer(id: nat) | User(id: nat)

  predicate BelongsTo(r: Review, o: Owner) {
    match o
    case Freelancer(id) => r.freelancer == id
    case User(id) => r.user == id
  }

  /**
   * The reviews of `s` that belong to `o`, in the order of `s`: every
   * returned review belongs to `o`, and every review of `s` that belongs to
   * `o` is returned, as many times as it occurs in `s`.
   */
  function ReviewsOf(s: seq<Review>, o: Owner): (r: seq<Review>)
    ensures forall x :: x in r <==> x in s && BelongsTo(x, o)
    ensures forall x :: multiset(r)[x] == if BelongsTo(x, o) then multiset(s)[x] else 0
    ensures |r| <= |s|
  {
    if s == [] then []
    else
      assert s == [s[0]] + s[1..];
      var rest := ReviewsOf(s[1..], o);
      if BelongsTo(s[0], o) then [s[0]] + rest else rest
  }

  /** Filtering commutes with concatenation, so it keeps the relative order of what it keeps. */
  lemma {:induction false} ReviewsOfAppend(s: seq<Review>, t: seq<Review>, o: Owner)
    ensures ReviewsOf(s + t, o) == ReviewsOf(s, o) + ReviewsOf(t, o)
  {
    if s == [] {
      assert s + t == t;
    } else {
      assert (s + t)[1..] == s[1..] + t;
      ReviewsOfAppend(s[1..], t, o);
    }
  }

  /** A list in which every review belongs to `o` passes the filter unchanged. */
  lemma {:induction false} ReviewsOfAllMatching(s: seq<Review>, o: Owner)
    requires forall i :: 0 <= i < |s| ==> BelongsTo(s[i], o)
    ensures ReviewsOf(s, o) == s
  {
    if s != [] {
      ReviewsOfAllMatching(s[1..], o);
    }
  }
}
