/**
 * Multi-key ordering of reviews, standing for the record store's
 * `order_by(*fields)`: the four field names the views emit, the
 * lexicographic comparison they induce, and a sort that meets it.
 */
module Ordering {
  import opened Reviews

  /** The `order_by` field names `-rating`, `rating`, `-date` and `date`. */
  datatype SortKey = RatingDesc | RatingAsc | DateDesc | DateAsc

  /** `k` names a rating field (as opposed to a date field). */
  predicate IsRatingKey(k: SortKey) {
    k == RatingDesc || k == RatingAsc
  }

  /** Under key `k` alone, `a` goes strictly before `b`. */
  predicate Precedes(a: Review, b: Review, k: SortKey) {
    match k
    case RatingDesc => a.rating > b.rating
    case RatingAsc => a.rating < b.rating
    case DateDesc => a.date > b.date
    case DateAsc => a.date < b.date
  }

  /**
   * `a` may stand before `b` when ordering by `keys` lexicographically: the
   * first key on which they differ decides, and if they agree on every key
   * either order is allowed.
   */
  predicate InOrder(a: Review, b: Review, keys: seq<SortKey>)
    decreases |keys|
  {
    keys == [] || Precedes(a, b, keys[0]) || (!Precedes(b, a, keys[0]) && InOrder(a, b, keys[1..]))
  }

  /** `s` is ordered by `keys`; nothing is said about the order of ties. */
  predicate SortedBy(s: seq<Review>, keys: seq<SortKey>) {
    forall i, j :: 0 <= i < j < |s| ==> InOrder(s[i], s[j], keys)
  }

  lemma {:induction false} InOrderTotal(a: Review, b: Review, keys: seq<SortKey>)
    ensures InOrder(a, b, keys) || InOrder(b, a, keys)
    decreases |keys|
  {
    if keys != [] {
      InOrderTotal(a, b, keys[1..]);
    }
  }

  lemma {:induction false} InOrderTransitive(a: Review, b: Review, c: Review, keys: seq<SortKey>)
    requires InOrder(a, b, keys) && InOrder(b, c, keys)
    ensures InOrder(a, c, keys)
    decreases |keys|
  {
    if keys != [] && !Precedes(a, b, keys[0]) && !Precedes(b, c, keys[0]) {
      InOrderTransitive(a, b, c, keys[1..]);
    }
  }

  /** Inserts `x` into a list already ordered by `keys`. */
  function Insert(x: Review, s: seq<Review>, keys: seq<SortKey>): (r: seq<Review>)
    requires SortedBy(s, keys)
    ensures SortedBy(r, keys)
    ensures multiset(r) == multiset(s) + multiset{x}
  {
    if s == [] then [x]
    else if InOrder(x, s[0], keys) then
      assert forall j :: 0 <= j < |s| ==> InOrder(x, s[j], keys) by {
        forall j | 0 <= j < |s| ensures InOrder(x, s[j], keys) {
          if j > 0 { InOrderTransitive(x, s[0], s[j], keys); }
        }
      }
      [x] + s
    else
      assert s == [s[0]] + s[1..];
      var rest := Insert(x, s[1..], keys);
      assert forall y :: y in rest ==> InOrder(s[0], y, keys) by {
        forall y | y in rest ensures InOrder(s[0], y, keys) {
          assert y in multiset(rest);
          if y == x {
            InOrderTotal(x, s[0], keys);
          } else {
            assert y in s[1..];
          }
        }
      }
      [s[0]] + rest
  }

  /**
   * `order_by(*keys)`: a rearrangement of `s` that is ordered by `keys`.
   * The store promises no particular order among ties. Being a function,
   * `OrderBy` settles on one, and contracts that name it inherit that
   * choice; the search contract relies only on the two clauses below.
   */
  function OrderBy(s: seq<Review>, keys: seq<SortKey>): (r: seq<Review>)
    ensures SortedBy(r, keys)
    ensures multiset(r) == multiset(s)
  {
    if s == [] then []
    else
      assert s == [s[0]] + s[1..];
      Insert(s[0], OrderBy(s[1..], keys), keys)
  }

  /** Every contiguous part of an ordered list is ordered. */
  lemma SortedBySlice(s: seq<Review>, keys: seq<SortKey>, lo: nat, hi: nat)
    requires SortedBy(s, keys) && lo <= hi <= |s|
    ensures SortedBy(s[lo..hi], keys)
  {
    forall i, j | 0 <= i < j < hi - lo ensures InOrder(s[lo..hi][i], s[lo..hi][j], keys) {
      assert s[lo..hi][i] == s[lo + i] && s[lo..hi][j] == s[lo + j];
    }
  }

  /**
   * What ordering by one rating key and then one date key means: the rating
   * never goes the wrong way, and among equal ratings the date never does.
   */
  lemma TwoKeyOrder(s: seq<Review>, rating: SortKey, date: SortKey)
    requires IsRatingKey(rating) && !IsRatingKey(date)
    requires SortedBy(s, [rating, date])
    ensures forall i, j :: 0 <= i < j < |s| ==>
      !Precedes(s[j], s[i], rating) &&
      (s[i].rating == s[j].rating ==> !Precedes(s[j], s[i], date))
  {
    forall i, j | 0 <= i < j < |s|
      ensures !Precedes(s[j], s[i], rating)
      ensures s[i].rating == s[j].rating ==> !Precedes(s[j], s[i], date)
    {
      assert InOrder(s[i], s[j], [rating, date]);
      assert [rating, date][1..] == [date];
      assert [date][1..] == [];
      if s[i].rating == s[j].rating {
        assert InOrder(s[i], s[j], [date]);
      }
    }
  }
}
