/** `calculateDynamicPrice`: a lot's base price scaled by one time factor, one occupancy factor
    and one quality factor, then rounded to the nearest 1000. */
module PriceCalculator {
  import opened Common
  import opened Pricing

  /** What the calculator reads from a lot. `basePrice` is None when the field is missing or
      is not a number. */
  datatype LotSnapshot = LotSnapshot(
    basePrice: Option<real>,
    totalSpots: int,
    availableSpots: int,
    rating: real,
    numReviews: int)

  predicate InRushHour(hour: int) {
    (7 <= hour <= 9) || (17 <= hour <= 19)
  }

  /** Rule 1: the morning and evening rush hours cost 20% more. */
  function TimeFactor(hour: int): (f: real)
    ensures f == 1.2 || f == 1.0
    ensures f == 1.2 <==> InRushHour(hour)
  {
    if InRushHour(hour) then 1.2 else 1.0
  }

  function OccupancyRate(totalSpots: int, availableSpots: int): real
    requires totalSpots > 0
  {
    (totalSpots - availableSpots) as real / totalSpots as real
  }

  /** Rule 2: above 80% occupancy +30%, else above 50% +10%; nothing for a lot without spots. */
  function OccupancyFactor(totalSpots: int, availableSpots: int): (f: real)
    ensures f == 1.3 || f == 1.1 || f == 1.0
    ensures totalSpots <= 0 ==> f == 1.0
    ensures totalSpots > 0 ==>
      (f == 1.3 <==> OccupancyRate(totalSpots, availableSpots) > 0.8) &&
      (f == 1.1 <==> 0.5 < OccupancyRate(totalSpots, availableSpots) <= 0.8)
  {
    if totalSpots > 0 then
      var rate := OccupancyRate(totalSpots, availableSpots);
      if rate > 0.8 then 1.3 else if rate > 0.5 then 1.1 else 1.0
    else 1.0
  }

  /** Rule 3: a well-rated lot with more than 10 reviews +10%; a poorly rated one with more
      than 5 reviews -10%. */
  function QualityFactor(rating: real, numReviews: int): (f: real)
    ensures f == 1.1 || f == 0.9 || f == 1.0
    ensures f == 1.1 <==> rating > 4.5 && numReviews > 10
    ensures f == 0.9 <==> !(rating > 4.5 && numReviews > 10) && 0.0 < rating < 3.0 && numReviews > 5
  {
    if rating > 4.5 && numReviews > 10 then 1.1
    else if rating > 0.0 && rating < 3.0 && numReviews > 5 then 0.9
    else 1.0
  }

  // The rules below apply each factor to the running price as the calculator does, with
  // literal multipliers, so that bounds on the price stay linear; `FactorsStack` proves that
  // they agree with the factor functions above.

  /** Rule 1 applied to the running price. */
  function ApplyTimeRule(price: real, hour: int): real {
    if InRushHour(hour) then price * 1.2 else price
  }

  /** Rule 2 applied to the running price. */
  function ApplyOccupancyRule(price: real, totalSpots: int, availableSpots: int): real {
    if totalSpots > 0 then
      var occupancy := (totalSpots - availableSpots) as real / totalSpots as real;
      if occupancy > 0.8 then price * 1.3
      else if occupancy > 0.5 then price * 1.1
      else price
    else price
  }

  /** Rule 3 applied to the running price. */
  function ApplyQualityRule(price: real, rating: real, numReviews: int): real {
    if rating > 4.5 && numReviews > 10 then price * 1.1
    else if rating > 0.0 && rating < 3.0 && numReviews > 5 then price * 0.9
    else price
  }

  /** `calculateDynamicPrice`: 0 without a lot or a numeric base price; otherwise the base
      price through the three rules in order, rounded to the nearest 1000. `hour` is
      `new Date().getHours()` on the server. */
  function CalculateDynamicPrice(lot: Option<LotSnapshot>, hour: int): (r: int)
    ensures r % 1000 == 0
    ensures lot.None? || lot.value.basePrice.None? ==> r == 0
  {
    if lot.None? || lot.value.basePrice.None? then 0
    else
      var l := lot.value;
      var p1 := ApplyTimeRule(l.basePrice.value, hour);
      var p2 := ApplyOccupancyRule(p1, l.totalSpots, l.availableSpots);
      var p3 := ApplyQualityRule(p2, l.rating, l.numReviews);
      RoundToThousand(p3)
  }

  /** The three rules' factors multiplied together. */
  function CombinedFactor(lot: LotSnapshot, hour: int): (m: real)
    ensures m == TimeFactor(hour) * OccupancyFactor(lot.totalSpots, lot.availableSpots)
                 * QualityFactor(lot.rating, lot.numReviews)
    ensures 0.9 <= m <= 1.716
  {
    var t, o, q := TimeFactor(hour), OccupancyFactor(lot.totalSpots, lot.availableSpots),
                   QualityFactor(lot.rating, lot.numReviews);
    assert 1.0 <= t * o <= 1.56;
    t * o * q
  }

  /** The rules stack: the dynamic price is the base price times one factor from each rule,
      rounded to the nearest 1000. */
  lemma FactorsStack(lot: LotSnapshot, hour: int)
    requires lot.basePrice.Some?
    ensures CalculateDynamicPrice(Some(lot), hour)
         == RoundToThousand(lot.basePrice.value * CombinedFactor(lot, hour))
  {
    var b := lot.basePrice.value;
    var t, o, q := TimeFactor(hour), OccupancyFactor(lot.totalSpots, lot.availableSpots),
                   QualityFactor(lot.rating, lot.numReviews);
    var p1 := ApplyTimeRule(b, hour);
    var p2 := ApplyOccupancyRule(p1, lot.totalSpots, lot.availableSpots);
    var p3 := ApplyQualityRule(p2, lot.rating, lot.numReviews);
    assert p1 == b * t;
    assert p2 == p1 * o;
    assert p3 == p2 * q;
    ChainIsProduct(b, t, o, q, p1, p2, p3);
  }

  /** Applying three factors one after another is applying their product once. */
  lemma ChainIsProduct(b: real, t: real, o: real, q: real, p1: real, p2: real, p3: real)
    requires p1 == b * t && p2 == p1 * o && p3 == p2 * q
    ensures p3 == b * (t * o * q)
  {
  }

  /** For a non-negative base price the dynamic price stays within [-10%, +71.6%] of it,
      up to rounding. */
  lemma DynamicPriceBounds(lot: LotSnapshot, hour: int)
    requires lot.basePrice.Some? && lot.basePrice.value >= 0.0
    ensures RoundToThousand(lot.basePrice.value * 0.9) <= CalculateDynamicPrice(Some(lot), hour)
    ensures CalculateDynamicPrice(Some(lot), hour) <= RoundToThousand(lot.basePrice.value * 1.716)
  {
    var b := lot.basePrice.value;
    var p1 := ApplyTimeRule(b, hour);
    var p2 := ApplyOccupancyRule(p1, lot.totalSpots, lot.availableSpots);
    var p3 := ApplyQualityRule(p2, lot.rating, lot.numReviews);
    assert b <= p1 <= b * 1.2;
    assert p1 <= p2 <= p1 * 1.3;
    assert p2 * 0.9 <= p3 <= p2 * 1.1;
    RoundToThousandMonotone(b * 0.9, p3);
    RoundToThousandMonotone(p3, b * 1.716);
  }

  /** A fuller lot is never cheaper, all else equal. */
  lemma OccupancyMonotone(totalSpots: int, freeA: int, freeB: int)
    requires totalSpots > 0 && freeB <= freeA
    ensures OccupancyFactor(totalSpots, freeA) <= OccupancyFactor(totalSpots, freeB)
  {
    var t := totalSpots as real;
    assert (totalSpots - freeA) as real / t <= (totalSpots - freeB) as real / t;
  }
}
