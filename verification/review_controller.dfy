/** The review controller: who may review a lot, the review it stores, and the lot's
    `numReviews` and `rating` recomputed from the stored reviews after every create or delete. */
module ReviewController {
  import opened Common
  import Text
  import opened ParkingLot
  import opened Booking

  /** A stored review. `rating` is the JSON number the client sent. */
  datatype Review = Review(
    id: ReviewId,
    user: UserId,
    parkingLot: LotId,
    name: string,
    rating: real,
    comment: string)

  /** The review schema's validators: every path is `required` (an empty string fails it),
      and the rating lies in [1, 5]. */
  predicate ReviewStorable(v: Review) {
    v.name != [] && v.comment != [] && 1.0 <= v.rating <= 5.0
  }

  predicate DistinctReviewIds(rows: seq<Review>) {
    forall i, j :: 0 <= i < j < |rows| ==> rows[i].id != rows[j].id
  }

  /** No user has two reviews of the same lot. */
  predicate OneReviewPerUser(rows: seq<Review>) {
    forall i, j :: 0 <= i < j < |rows| ==>
      rows[i].user != rows[j].user || rows[i].parkingLot != rows[j].parkingLot
  }

  /** The `reviews` collection, in insertion order. */
  class ReviewTable {
    var rows: seq<Review>

    ghost predicate Valid()
      reads this
    {
      && DistinctReviewIds(rows)
      && OneReviewPerUser(rows)
      && (forall i :: 0 <= i < |rows| ==> ReviewStorable(rows[i]))
    }

    constructor ()
      ensures Valid() && rows == []
    {
      rows := [];
    }

    /** `review.save()` for a review that passes the validators, of a lot its author has not
        reviewed yet. */
    method Insert(v: Review)
      requires Valid() && ReviewStorable(v) && !HasReviewed(rows, v.user, v.parkingLot)
      requires forall i :: 0 <= i < |rows| ==> rows[i].id != v.id
      modifies this
      ensures Valid() && rows == old(rows) + [v]
    {
      AppendKeepsValid(rows, v);
      rows := rows + [v];
    }

    /** `review.deleteOne()` for the review at position `i`. */
    method Remove(i: nat)
      requires Valid() && i < |rows|
      modifies this
      ensures Valid() && rows == old(rows)[..i] + old(rows)[i + 1..]
    {
      RemoveKeepsValid(rows, i);
      rows := rows[..i] + rows[i + 1..];
    }
  }

  // ---------------------------------------------------------------- the aggregation pipeline

  /** `$match: {parkingLot: lot}`, keeping the collection's order. */
  function LotReviews(rows: seq<Review>, lot: LotId): (rs: seq<Review>)
    ensures |rs| <= |rows|
    ensures forall k :: 0 <= k < |rs| ==> rs[k].parkingLot == lot
  {
    if rows == [] then []
    else
      var last := rows[|rows| - 1];
      LotReviews(rows[..|rows| - 1], lot) + (if last.parkingLot == lot then [last] else [])
  }

  /** The match holds exactly the lot's reviews. */
  lemma {:induction false} LotReviewsMembers(rows: seq<Review>, lot: LotId)
    ensures forall v :: v in LotReviews(rows, lot) <==> v in rows && v.parkingLot == lot
  {
    if rows != [] {
      var init := rows[..|rows| - 1];
      LotReviewsMembers(init, lot);
      assert rows == init + [rows[|rows| - 1]];
    }
  }

  /** The match is empty exactly when no review is of the lot. */
  lemma LotReviewsEmpty(rows: seq<Review>, lot: LotId)
    ensures LotReviews(rows, lot) == [] <==> forall i :: 0 <= i < |rows| ==> rows[i].parkingLot != lot
  {
    LotReviewsMembers(rows, lot);
    if LotReviews(rows, lot) != [] {
      var v := LotReviews(rows, lot)[0];
      assert v in LotReviews(rows, lot);
    } else {
      forall i | 0 <= i < |rows| ensures rows[i].parkingLot != lot {
        assert rows[i] !in LotReviews(rows, lot);
      }
    }
  }

  /** Every matched rating lies in [1, 5] when every stored one does. */
  lemma {:induction false} LotReviewsRatings(rows: seq<Review>, lot: LotId)
    requires forall i :: 0 <= i < |rows| ==> 1.0 <= rows[i].rating <= 5.0
    ensures forall k :: 0 <= k < |LotReviews(rows, lot)| ==> 1.0 <= LotReviews(rows, lot)[k].rating <= 5.0
  {
    if rows != [] {
      LotReviewsRatings(rows[..|rows| - 1], lot);
    }
  }

  lemma LotReviewsAppend(rows: seq<Review>, v: Review, lot: LotId)
    ensures LotReviews(rows + [v], lot)
         == LotReviews(rows, lot) + (if v.parkingLot == lot then [v] else [])
  {
    assert (rows + [v])[..|rows + [v]| - 1] == rows;
  }

  /** Removing one review removes it from its own lot's match, and from no other lot's. */
  lemma {:induction false} LotReviewsRemove(rows: seq<Review>, i: nat, lot: LotId)
    requires i < |rows|
    ensures |LotReviews(rows[..i] + rows[i + 1..], lot)|
         == |LotReviews(rows, lot)| - Ind(rows[i].parkingLot == lot)
    ensures SumRatings(LotReviews(rows[..i] + rows[i + 1..], lot))
         == SumRatings(LotReviews(rows, lot)) - (if rows[i].parkingLot == lot then rows[i].rating else 0.0)
    decreases |rows|
  {
    var n := |rows|;
    var last := rows[n - 1];
    var init := rows[..n - 1];
    if i == n - 1 {
      assert rows[..i] + rows[i + 1..] == init;
      assert rows == init + [last];
      LotReviewsAppend(init, last, lot);
      var tail := if last.parkingLot == lot then [last] else [];
      SumAppend(LotReviews(init, lot), tail);
      SumSingle(last);
      assert SumRatings([]) == 0.0;
    } else {
      var rest := rows[..i] + rows[i + 1..];
      assert rest == (init[..i] + init[i + 1..]) + [last];
      assert rows == init + [last];
      LotReviewsRemove(init, i, lot);
      LotReviewsAppend(init[..i] + init[i + 1..], last, lot);
      LotReviewsAppend(init, last, lot);
      var tail := if last.parkingLot == lot then [last] else [];
      SumAppend(LotReviews(init[..i] + init[i + 1..], lot), tail);
      SumAppend(LotReviews(init, lot), tail);
    }
  }

  /** `$sum: '$rating'`, from the back like `Count`. */
  function SumRatings(rs: seq<Review>): real {
    if rs == [] then 0.0 else SumRatings(rs[..|rs| - 1]) + rs[|rs| - 1].rating
  }

  lemma {:induction false} SumAppend(a: seq<Review>, b: seq<Review>)
    ensures SumRatings(a + b) == SumRatings(a) + SumRatings(b)
    decreases |b|
  {
    if b == [] {
      assert a + b == a;
    } else {
      var b' := b[..|b| - 1];
      assert (a + b)[..|a + b| - 1] == a + b';
      SumAppend(a, b');
    }
  }

  lemma SumSingle(v: Review)
    ensures SumRatings([v]) == v.rating
  {
    assert [v][..0] == [];
  }

  /** With every rating in [1, 5], the sum of n ratings lies in [n, 5n]. */
  lemma {:induction false} SumBounds(rs: seq<Review>)
    requires forall i :: 0 <= i < |rs| ==> 1.0 <= rs[i].rating <= 5.0
    ensures |rs| as real <= SumRatings(rs) <= 5.0 * |rs| as real
  {
    if rs != [] {
      SumBounds(rs[..|rs| - 1]);
    }
  }

  /** One group of the pipeline's `$group` stage. */
  datatype LotStats = LotStats(numReviews: nat, avgRating: real)

  /** The pipeline's output for `lot`: no group at all when the lot has no review. */
  function Aggregate(rows: seq<Review>, lot: LotId): (r: Option<LotStats>)
    ensures r.None? <==> forall i :: 0 <= i < |rows| ==> rows[i].parkingLot != lot
    ensures r.Some? ==> r.value.numReviews == |LotReviews(rows, lot)| > 0
    ensures r.Some? ==>
      r.value.avgRating * r.value.numReviews as real == SumRatings(LotReviews(rows, lot))
  {
    var rs := LotReviews(rows, lot);
    LotReviewsEmpty(rows, lot);
    if rs == [] then None
    else Some(LotStats(|rs|, SumRatings(rs) / |rs| as real))
  }

  /** The average of ratings that all lie in [1, 5] lies in [1, 5]. */
  lemma AggregateBounds(rows: seq<Review>, lot: LotId)
    requires forall i :: 0 <= i < |rows| ==> 1.0 <= rows[i].rating <= 5.0
    ensures Aggregate(rows, lot).Some? ==> 1.0 <= Aggregate(rows, lot).value.avgRating <= 5.0
  {
    var rs := LotReviews(rows, lot);
    LotReviewsRatings(rows, lot);
    SumBounds(rs);
    if rs != [] {
      AverageWithin(SumRatings(rs), |rs| as real);
    }
  }

  lemma AverageWithin(s: real, n: real)
    requires n > 0.0 && n <= s <= 5.0 * n
    ensures 1.0 <= s / n <= 5.0
  {
  }

  /** `Math.round(x * 10) / 10`: the multiple of 0.1 nearest to `x`, halves rounded up. */
  function RoundTenth(x: real): (r: real)
    ensures r - 0.05 <= x < r + 0.05
    ensures (r * 10.0).Floor as real == r * 10.0
  {
    (x * 10.0 + 0.5).Floor as real / 10.0
  }

  /** Rounding keeps a rating inside the range [lo, hi] when both ends are multiples of 0.1. */
  lemma RoundTenthWithin(x: real, lo: int, hi: int)
    requires lo as real / 10.0 <= x <= hi as real / 10.0
    ensures lo as real / 10.0 <= RoundTenth(x) <= hi as real / 10.0
  {
    var y := x * 10.0 + 0.5;
    assert lo as real + 0.5 <= y <= hi as real + 0.5;
    assert lo <= y.Floor <= hi;
  }

  /** The stats `numReviews`/`rating` written to the lot: the pipeline's group when there is
      one, otherwise the given fallback. */
  function StatsOf(rows: seq<Review>, lot: LotId, fallbackCount: int, fallbackRating: real): (s: (int, real))
    ensures Aggregate(rows, lot).None? ==> s == (fallbackCount, fallbackRating)
    ensures Aggregate(rows, lot).Some? ==>
      s.0 == |LotReviews(rows, lot)| && s.1 == RoundTenth(Aggregate(rows, lot).value.avgRating)
  {
    var stats := Aggregate(rows, lot);
    if stats.Some? then (stats.value.numReviews, RoundTenth(stats.value.avgRating))
    else (fallbackCount, fallbackRating)
  }

  /** With stored ratings in [1, 5], the recomputed lot stats satisfy the lot's validators
      (`rating` in [0, 5], `numReviews` at least 0) whenever the fallback does. */
  lemma StatsStorable(rows: seq<Review>, lot: LotId, fallbackCount: int, fallbackRating: real)
    requires forall i :: 0 <= i < |rows| ==> 1.0 <= rows[i].rating <= 5.0
    requires fallbackCount >= 0 && 0.0 <= fallbackRating <= 5.0
    ensures var s := StatsOf(rows, lot, fallbackCount, fallbackRating);
      s.0 >= 0 && 0.0 <= s.1 <= 5.0
  {
    AggregateBounds(rows, lot);
    if Aggregate(rows, lot).Some? {
      RoundTenthWithin(Aggregate(rows, lot).value.avgRating, 10, 50);
    }
  }

  // ---------------------------------------------------------------- who may review

  /** `Booking.exists({user, parkingLot, status: 'completed'})`. */
  predicate HasCompletedBooking(bookings: map<BookingId, Booking>, user: UserId, lot: LotId) {
    exists id :: id in bookings && bookings[id].user == user && bookings[id].parkingLot == lot
                 && bookings[id].status == Completed
  }

  /** `Review.exists({user, parkingLot})`. */
  predicate HasReviewed(rows: seq<Review>, user: UserId, lot: LotId) {
    exists i :: 0 <= i < |rows| && rows[i].user == user && rows[i].parkingLot == lot
  }

  /** `canReview`: a completed booking at the lot, and no review of it yet. */
  predicate CanReview(bookings: map<BookingId, Booking>, rows: seq<Review>, user: UserId, lot: LotId) {
    HasCompletedBooking(bookings, user, lot) && !HasReviewed(rows, user, lot)
  }

  /** The `getParkingLotReviews` answer. */
  datatype ReviewsPage = ReviewsPage(reviews: seq<Review>, canReview: bool, totalReviews: nat)

  function Reversed(s: seq<Review>): (r: seq<Review>)
    ensures |r| == |s|
    ensures forall i :: 0 <= i < |s| ==> r[i] == s[|s| - 1 - i]
  {
    if s == [] then [] else [s[|s| - 1]] + Reversed(s[..|s| - 1])
  }

  /** `getParkingLotReviews`: 400 for an id that is not an ObjectId; otherwise the lot's
      reviews newest first (the collection holds them in creation order), their number and
      the caller's `canReview`. The lot itself need not exist. */
  function GetParkingLotReviews(bookings: map<BookingId, Booking>, rows: seq<Review>, user: UserId,
                                parkingLotId: Option<LotId>): (r: Result<ReviewsPage, Reply>)
    ensures parkingLotId.None? <==> r == Err(BadRequest400)
    ensures r.Ok? ==>
      && r.value.totalReviews == |r.value.reviews| == |LotReviews(rows, parkingLotId.value)|
      && (forall v :: v in r.value.reviews <==> v in rows && v.parkingLot == parkingLotId.value)
      && (forall i :: 0 <= i < |r.value.reviews| ==>
            r.value.reviews[i] == LotReviews(rows, parkingLotId.value)[|r.value.reviews| - 1 - i])
      && (r.value.canReview <==> HasCompletedBooking(bookings, user, parkingLotId.value)
                                 && !HasReviewed(rows, user, parkingLotId.value))
  {
    if parkingLotId.None? then Err(BadRequest400)
    else
      var rs := Reversed(LotReviews(rows, parkingLotId.value));
      LotReviewsMembers(rows, parkingLotId.value);
      assert forall v :: v in rs <==> v in LotReviews(rows, parkingLotId.value) by {
        var ls := LotReviews(rows, parkingLotId.value);
        forall v ensures v in rs <==> v in ls {
          if v in ls {
            var i :| 0 <= i < |ls| && ls[i] == v;
            assert rs[|ls| - 1 - i] == v;
          }
        }
      }
      Ok(ReviewsPage(rs, CanReview(bookings, rows, user, parkingLotId.value), |rs|))
  }

  // ---------------------------------------------------------------- creating a review

  /** The rating guard: missing or falsy, below 1 or above 5. A value that `Number` turns
      into NaN (`Malformed`) passes it, since NaN compares false both ways. */
  predicate RatingRejected(rating: Field<real>) {
    rating.Absent? || (rating.Given? && (rating.value < 1.0 || rating.value > 5.0))
  }

  /** The stored comment: trimmed, or empty when missing or falsy. */
  function StoredComment(comment: Field<string>): (c: Option<string>)
    ensures comment.Malformed? <==> c.None?
    ensures comment.Absent? ==> c == Some([])
    ensures comment.Given? ==> c == Some(Text.Trim(comment.value))
  {
    match comment
    case Absent => Some([])
    case Malformed => None
    case Given(s) => Some(Text.Trim(s))
  }

  /** What `createParkingLotReview` decides before it writes anything: the reply, or the review
      to store. `found` is whether `findById` matched; `rows` are the stored reviews. */
  function ReviewToCreate(rows: seq<Review>, found: bool, bookings: map<BookingId, Booking>, user: UserId,
                          userName: string, parkingLotId: Option<LotId>, rating: Field<real>,
                          comment: Field<string>, newId: ReviewId): (r: Result<Review, Reply>)
    ensures RatingRejected(rating) ==> r == Err(BadRequest400)
    ensures !RatingRejected(rating) && parkingLotId.None? ==> r == Err(BadRequest400)
    ensures (!RatingRejected(rating) && parkingLotId.Some? && !found) ==> r == Err(ServerError500)
    ensures (!RatingRejected(rating) && parkingLotId.Some? && found
             && !HasCompletedBooking(bookings, user, parkingLotId.value)) ==> r == Err(Forbidden403)
    ensures (!RatingRejected(rating) && parkingLotId.Some? && found
             && HasCompletedBooking(bookings, user, parkingLotId.value)
             && HasReviewed(rows, user, parkingLotId.value)) ==> r == Err(BadRequest400)
    ensures r.Ok? <==>
      && rating.Given? && 1.0 <= rating.value <= 5.0
      && parkingLotId.Some? && found
      && CanReview(bookings, rows, user, parkingLotId.value)
      && comment.Given? && Text.Trim(comment.value) != [] && userName != []
    ensures r.Ok? ==>
      && r.value == Review(newId, user, parkingLotId.value, userName, rating.value, Text.Trim(comment.value))
      && ReviewStorable(r.value)
      && !HasReviewed(rows, user, parkingLotId.value)
  {
    if RatingRejected(rating) then Err(BadRequest400)
    else if parkingLotId.None? then Err(BadRequest400)
    else if !found then Err(ServerError500)
    else if !HasCompletedBooking(bookings, user, parkingLotId.value) then Err(Forbidden403)
    else if HasReviewed(rows, user, parkingLotId.value) then Err(BadRequest400)
    else
      var stored := StoredComment(comment);
      if stored.None? then Err(ServerError500)
      // The save's ValidationError: a NaN rating, or an empty `comment` or `name`.
      else if rating.Malformed? || stored.value == [] || userName == [] then Err(BadRequest400)
      else Ok(Review(newId, user, parkingLotId.value, userName, rating.value, stored.value))
  }

  /** `createParkingLotReview`. `parkingLotId` is None when it is not a valid ObjectId; `lot`
      is what `findById` returned (it matched when its id is the requested one); `bookings`
      is the booking collection; `comment` Malformed is a truthy non-string, whose `trim`
      throws; `newId` is the id Mongo gives the new review. Every failure after the
      transaction starts aborts it, so only a 201 changes anything; on a 201 the lot's stats
      are recomputed over its reviews, the new one included. */
  method CreateParkingLotReview(reviews: ReviewTable, lot: ParkingLotDoc?, bookings: map<BookingId, Booking>,
                                user: UserId, userName: string, parkingLotId: Option<LotId>,
                                rating: Field<real>, comment: Field<string>, newId: ReviewId)
    returns (r: Reply)
    requires reviews.Valid()
    requires lot != null ==> lot.Valid()
    requires forall i :: 0 <= i < |reviews.rows| ==> reviews.rows[i].id != newId
    modifies reviews, lot
    ensures reviews.Valid()
    ensures lot != null ==> lot.Valid()
    ensures
      var plan := ReviewToCreate(old(reviews.rows), lot != null && parkingLotId.Some? && lot.id == parkingLotId.value,
                                 bookings, user, userName, parkingLotId, rating, comment, newId);
      && (plan.Err? ==> r == plan.error && reviews.rows == old(reviews.rows)
                        && (lot != null ==> lot.numReviews == old(lot.numReviews) && lot.rating == old(lot.rating)))
      && (plan.Ok? ==> r == Created201 && reviews.rows == old(reviews.rows) + [plan.value]
                       && (lot.numReviews, lot.rating) == StatsOf(reviews.rows, lot.id, 1, plan.value.rating))
    ensures lot != null ==> lot.status == old(lot.status)
  {
    var found := lot != null && parkingLotId.Some? && lot.id == parkingLotId.value;
    var plan := ReviewToCreate(reviews.rows, found, bookings, user, userName, parkingLotId, rating, comment, newId);
    if plan.Err? {
      return plan.error;
    }
    var review := plan.value;
    reviews.Insert(review);
    StatsStorable(reviews.rows, lot.id, 1, review.rating);
    var stats := StatsOf(reviews.rows, lot.id, 1, review.rating);
    lot.SaveStats(stats.0, stats.1);
    r := Created201;
  }

  /** After a created review the lot's `numReviews` is the number of its reviews and its
      `rating` their average, rounded to a tenth; its author can no longer review it. */
  lemma CreatedReviewStats(rows: seq<Review>, bookings: map<BookingId, Booking>, v: Review)
    requires !HasReviewed(rows, v.user, v.parkingLot)
    ensures var after := rows + [v];
      && StatsOf(after, v.parkingLot, 1, v.rating).0 == |LotReviews(rows, v.parkingLot)| + 1
      && Aggregate(after, v.parkingLot).Some?
      && StatsOf(after, v.parkingLot, 1, v.rating).1 == RoundTenth(Aggregate(after, v.parkingLot).value.avgRating)
      && !CanReview(bookings, after, v.user, v.parkingLot)
  {
    var after := rows + [v];
    LotReviewsAppend(rows, v, v.parkingLot);
    assert after[|rows|] == v;
  }

  /** Appending a review that passes the validators and the two guards keeps the table valid. */
  lemma AppendKeepsValid(rows: seq<Review>, v: Review)
    requires DistinctReviewIds(rows) && OneReviewPerUser(rows)
    requires forall i :: 0 <= i < |rows| ==> ReviewStorable(rows[i])
    requires ReviewStorable(v) && !HasReviewed(rows, v.user, v.parkingLot)
    requires forall i :: 0 <= i < |rows| ==> rows[i].id != v.id
    ensures var all := rows + [v];
      DistinctReviewIds(all) && OneReviewPerUser(all) && forall i :: 0 <= i < |all| ==> ReviewStorable(all[i])
  {
    var all := rows + [v];
    forall i, j | 0 <= i < j < |all|
      ensures all[i].user != all[j].user || all[i].parkingLot != all[j].parkingLot
    {
      if j == |rows| {
        assert all[i] == rows[i];
      }
    }
  }

  // ---------------------------------------------------------------- deleting a review

  function FindReview(rows: seq<Review>, id: ReviewId): (r: Option<nat>)
    ensures r.None? <==> forall i :: 0 <= i < |rows| ==> rows[i].id != id
    ensures r.Some? ==> r.value < |rows| && rows[r.value].id == id
  {
    if rows == [] then None
    else if rows[|rows| - 1].id == id then Some(|rows| - 1)
    else FindReview(rows[..|rows| - 1], id)
  }

  /** Removing reviews keeps the table valid. */
  lemma RemoveKeepsValid(rows: seq<Review>, i: nat)
    requires i < |rows|
    requires DistinctReviewIds(rows) && OneReviewPerUser(rows)
    requires forall k :: 0 <= k < |rows| ==> ReviewStorable(rows[k])
    ensures var rest := rows[..i] + rows[i + 1..];
      DistinctReviewIds(rest) && OneReviewPerUser(rest) && forall k :: 0 <= k < |rest| ==> ReviewStorable(rest[k])
  {
    var rest := rows[..i] + rows[i + 1..];
    assert forall k :: 0 <= k < |rest| ==> rest[k] == rows[if k < i then k else k + 1];
  }

  /** What `deleteReview` decides before it writes: the reply, or the position of the review
      to delete. */
  function ReviewToDelete(rows: seq<Review>, reviewId: Option<ReviewId>): (r: Result<nat, Reply>)
    ensures reviewId.None? ==> r == Err(BadRequest400)
    ensures (reviewId.Some? && forall i :: 0 <= i < |rows| ==> rows[i].id != reviewId.value)
              ==> r == Err(ServerError500)
    ensures r.Ok? <==> reviewId.Some? && exists i :: 0 <= i < |rows| && rows[i].id == reviewId.value
    ensures r.Ok? ==> r.value < |rows| && rows[r.value].id == reviewId.value
  {
    if reviewId.None? then Err(BadRequest400)
    else
      var found := FindReview(rows, reviewId.value);
      if found.None? then Err(ServerError500) else Ok(found.value)
  }

  /** `deleteReview` (admin). `reviewId` is None when it is not a valid ObjectId; `lot` is what
      `findById(review.parkingLot)` returned. An unknown review aborts the transaction (500);
      a lot that is gone is skipped; otherwise the lot's stats are recomputed, and reset to
      0/0 when it has no review left. */
  method DeleteReview(reviews: ReviewTable, lot: ParkingLotDoc?, reviewId: Option<ReviewId>)
    returns (r: Reply)
    requires reviews.Valid()
    requires lot != null ==> lot.Valid()
    modifies reviews, lot
    ensures reviews.Valid()
    ensures lot != null ==> lot.Valid()
    ensures
      var plan := ReviewToDelete(old(reviews.rows), reviewId);
      && (plan.Err? ==> r == plan.error && reviews.rows == old(reviews.rows))
      && (plan.Ok? ==> r == Ok200 && reviews.rows == old(reviews.rows)[..plan.value] + old(reviews.rows)[plan.value + 1..])
      && (plan.Ok? && lot != null && lot.id == old(reviews.rows)[plan.value].parkingLot ==>
            (lot.numReviews, lot.rating) == StatsOf(reviews.rows, lot.id, 0, 0.0))
      && (plan.Err? || lot == null || lot.id != old(reviews.rows)[plan.value].parkingLot ==>
            lot != null ==> lot.numReviews == old(lot.numReviews) && lot.rating == old(lot.rating))
    ensures lot != null ==>
      lot.slots == old(lot.slots) && lot.status == old(lot.status) && lot.pricingTiers == old(lot.pricingTiers)
  {
    var plan := ReviewToDelete(reviews.rows, reviewId);
    if plan.Err? {
      return plan.error;
    }
    var lotId := reviews.rows[plan.value].parkingLot;
    reviews.Remove(plan.value);
    if lot != null && lot.id == lotId {
      StatsStorable(reviews.rows, lotId, 0, 0.0);
      var stats := StatsOf(reviews.rows, lotId, 0, 0.0);
      lot.SaveStats(stats.0, stats.1);
    }
    r := Ok200;
  }

  /** After a delete the review's lot has one review fewer, its `numReviews` counts the rest,
      and its `rating` is their rounded average, or 0 when none is left. */
  lemma DeletedReviewStats(rows: seq<Review>, i: nat)
    requires i < |rows| && DistinctReviewIds(rows)
    ensures var rest := rows[..i] + rows[i + 1..];
      var lot := rows[i].parkingLot;
      && |LotReviews(rest, lot)| == |LotReviews(rows, lot)| - 1
      && (forall k :: 0 <= k < |rest| ==> rest[k].id != rows[i].id)
      && StatsOf(rest, lot, 0, 0.0).0 == |LotReviews(rest, lot)|
      && StatsOf(rest, lot, 0, 0.0).1
           == (if LotReviews(rest, lot) == [] then 0.0 else RoundTenth(Aggregate(rest, lot).value.avgRating))
  {
    var rest := rows[..i] + rows[i + 1..];
    LotReviewsRemove(rows, i, rows[i].parkingLot);
    assert forall k :: 0 <= k < |rest| ==> rest[k] == rows[if k < i then k else k + 1];
  }

  // ---------------------------------------------------------------- properties

  /** The first review of a lot sets its rating to that review's rating, rounded. */
  lemma FirstReviewSetsRating(rows: seq<Review>, v: Review)
    requires forall i :: 0 <= i < |rows| ==> rows[i].parkingLot != v.parkingLot
    ensures StatsOf(rows + [v], v.parkingLot, 1, v.rating) == (1, RoundTenth(v.rating))
  {
    LotReviewsAppend(rows, v, v.parkingLot);
    LotReviewsEmpty(rows, v.parkingLot);
    SumSingle(v);
    assert LotReviews(rows + [v], v.parkingLot) == [v];
    var agg := Aggregate(rows + [v], v.parkingLot);
    assert agg.Some? && agg.value.numReviews == 1;
    assert agg.value.avgRating * 1.0 == v.rating;
  }

  /** A review of one lot leaves every other lot's stats as they were. */
  lemma OtherLotStatsUnchanged(rows: seq<Review>, v: Review, lot: LotId)
    requires v.parkingLot != lot
    ensures Aggregate(rows + [v], lot) == Aggregate(rows, lot)
  {
    LotReviewsAppend(rows, v, lot);
    assert LotReviews(rows + [v], lot) == LotReviews(rows, lot);
  }
}
