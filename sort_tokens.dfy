/**
 * Turning the repeatable `sort_by` query parameter into `order_by` fields:
 * at most one rating field, then at most one date field, with the
 * descending token of each pair taking precedence.
 */
module SortTokens {
  import opened Reviews
  import opened Ordering

  const RatingHighToLow: string := "rating_high_to_low"
  const RatingLowToHigh: string := "rating_low_to_high"
  const DateNewestFirst: string := "date_newest_first"
  const DateOldestFirst: string := "date_oldest_first"

  /** None of the four recognised tokens occurs in `tokens`. */
  predicate NoKnownToken(tokens: seq<string>) {
    RatingHighToLow !in tokens && RatingLowToHigh !in tokens &&
    DateNewestFirst !in tokens && DateOldestFirst !in tokens
  }

  /**
   * The sort fields the search view accumulates from `tokens`. Each field
   * is there exactly when its token is, except that an ascending field
   * gives way to its descending partner; rating fields come before date
   * fields; unrecognised tokens are ignored.
   */
  function ResolveSortFields(tokens: seq<string>): (fields: seq<SortKey>)
    ensures |fields| <= 2
    ensures RatingDesc in fields <==> RatingHighToLow in tokens
    ensures RatingAsc in fields <==> RatingLowToHigh in tokens && RatingHighToLow !in tokens
    ensures DateDesc in fields <==> DateNewestFirst in tokens
    ensures DateAsc in fields <==> DateOldestFirst in tokens && DateNewestFirst !in tokens
    ensures forall i, j :: 0 <= i < j < |fields| ==> IsRatingKey(fields[i]) && !IsRatingKey(fields[j])
    ensures fields == [] <==> NoKnownToken(tokens)
  {
    var rating :=
      if RatingHighToLow in tokens then [RatingDesc]
      else if RatingLowToHigh in tokens then [RatingAsc]
      else [];
    var date :=
      if DateNewestFirst in tokens then [DateDesc]
      else if DateOldestFirst in tokens then [DateAsc]
      else [];
    rating + date
  }

  /** Only which tokens are present matters, not their order or repetition. */
  lemma ResolveSortFieldsIgnoresOrder(a: seq<string>, b: seq<string>)
    requires forall t :: t in a <==> t in b
    ensures ResolveSortFields(a) == ResolveSortFields(b)
  {
    assert RatingHighToLow in a <==> RatingHighToLow in b;
    assert RatingLowToHigh in a <==> RatingLowToHigh in b;
    assert DateNewestFirst in a <==> DateNewestFirst in b;
    assert DateOldestFirst in a <==> DateOldestFirst in b;
  }

  /**
   * Asking for ascending rating and newest date first orders by rating
   * upwards and breaks rating ties newest first.
   */
  lemma LowToHighNewestFirst(tokens: seq<string>, s: seq<Review>)
    requires RatingLowToHigh in tokens && DateNewestFirst in tokens && RatingHighToLow !in tokens
    requires SortedBy(s, ResolveSortFields(tokens))
    ensures forall i, j :: 0 <= i < j < |s| ==>
      s[i].rating <= s[j].rating && (s[i].rating == s[j].rating ==> s[i].date >= s[j].date)
  {
    assert ResolveSortFields(tokens) == [RatingAsc, DateDesc];
    TwoKeyOrder(s, RatingAsc, DateDesc);
  }

  /** When both rating tokens are given, rating descends, whatever else is asked. */
  lemma BothRatingTokensDescend(tokens: seq<string>, s: seq<Review>)
    requires RatingHighToLow in tokens && RatingLowToHigh in tokens
    requires SortedBy(s, ResolveSortFields(tokens))
    ensures forall i, j :: 0 <= i < j < |s| ==> s[i].rating >= s[j].rating
  {
    var fields := ResolveSortFields(tokens);
    assert fields[0] == RatingDesc;
    forall i, j | 0 <= i < j < |s| ensures s[i].rating >= s[j].rating {
      assert InOrder(s[i], s[j], fields);
    }
  }
}
