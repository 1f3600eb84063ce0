/** Base price by whole started hours, rounding to the nearest 1000, and the price estimate
    with its one-of weekend / peak-hour surcharge. */
module Pricing {
  import opened Common
  import opened ParkingLot

  const HourMs: nat := 3600000

  /** `Math.ceil(ms / 3600000)`: the fewest whole hours that cover `ms` milliseconds. */
  function CeilHours(ms: nat): (h: nat)
    ensures (h - 1) * HourMs < ms <= h * HourMs
  {
    (ms + HourMs - 1) / HourMs
  }

  /** The hour count is the least that covers the duration. */
  lemma CeilHoursLeast(ms: nat, k: nat)
    requires ms <= k * HourMs
    ensures CeilHours(ms) <= k
  {
  }

  /** A longer stay never bills fewer hours. */
  lemma CeilHoursMonotone(a: nat, b: nat)
    requires a <= b
    ensures CeilHours(a) <= CeilHours(b)
  {
    CeilHoursLeast(a, CeilHours(b));
  }

  /** `Math.round(x / 1000) * 1000`: the multiple of 1000 nearest to `x`, halves rounding up. */
  function RoundToThousand(x: real): (r: int)
    ensures r % 1000 == 0
    ensures r as real - 500.0 <= x < r as real + 500.0
  {
    (x / 1000.0 + 0.5).Floor * 1000
  }

  /** No other multiple of 1000 is within half a thousand of `x`. */
  lemma RoundToThousandUnique(x: real, m: int)
    requires m % 1000 == 0
    requires m as real - 500.0 <= x < m as real + 500.0
    ensures RoundToThousand(x) == m
  {
  }

  lemma RoundToThousandMonotone(x: real, y: real)
    requires x <= y
    ensures RoundToThousand(x) <= RoundToThousand(y)
  {
    var a, b := x / 1000.0 + 0.5, y / 1000.0 + 0.5;
    assert a <= b;
    assert a.Floor as real <= a < b.Floor as real + 1.0;
  }

  /** `calculateBasePrice`: 0 for missing times, an empty or inverted window, or a rate that
      is not a non-negative number; otherwise the rate for every started hour. */
  function CalculateBasePrice(start: Option<int>, end: Option<int>, rate: Option<int>): (r: int)
    ensures start.None? || end.None? || rate.None? ==> r == 0
    ensures start.Some? && end.Some? && end.value <= start.value ==> r == 0
    ensures rate.Some? && rate.value < 0 ==> r == 0
    ensures start.Some? && end.Some? && rate.Some? && end.value > start.value && rate.value >= 0 ==>
              r == CeilHours(end.value - start.value) * rate.value
    ensures r >= 0
  {
    if start.None? || end.None? || end.value <= start.value || rate.None? || rate.value < 0 then 0
    else CeilHours(end.value - start.value) * rate.value
  }

  /** 61 minutes at 10 000 per hour bills two hours. */
  lemma BasePriceSixtyOneMinutes(start: int)
    ensures CalculateBasePrice(Some(start), Some(start + 61 * 60000), Some(10000)) == 20000
  {
    assert CeilHours(61 * 60000) == 2;
  }

  datatype Factor = BasePriceFactor | WeekendSurcharge | PeakHourSurcharge

  predicate IsWeekend(day: int) { day == 0 || day == 6 }

  predicate IsPeakHour(hour: int) { 17 <= hour <= 19 }

  /** The single factor that explains an estimate: weekend wins over peak hour. */
  function Surcharge(day: int, hour: int): (f: Factor)
    ensures f == WeekendSurcharge <==> IsWeekend(day)
    ensures f == PeakHourSurcharge <==> !IsWeekend(day) && IsPeakHour(hour)
    ensures f == BasePriceFactor <==> !IsWeekend(day) && !IsPeakHour(hour)
  {
    if IsWeekend(day) then WeekendSurcharge
    else if IsPeakHour(hour) then PeakHourSurcharge
    else BasePriceFactor
  }

  function Multiplier(f: Factor): real {
    match f
    case BasePriceFactor => 1.0
    case WeekendSurcharge => 1.2
    case PeakHourSurcharge => 1.15
  }

  /** `factors.filter(f => f !== 'base_price')`. */
  function WithoutBase(fs: seq<Factor>): (r: seq<Factor>)
    ensures |r| <= |fs|
    ensures forall f :: f in r <==> f in fs && f != BasePriceFactor
  {
    if fs == [] then []
    else if fs[0] == BasePriceFactor then WithoutBase(fs[1..])
    else [fs[0]] + WithoutBase(fs[1..])
  }

  lemma WithoutLeadingBase(f: Factor)
    requires f != BasePriceFactor
    ensures WithoutBase([BasePriceFactor] + [f]) == [f]
  {
    assert ([BasePriceFactor] + [f])[1..] == [f];
    assert [f][1..] == [];
  }

  datatype EstimateQuery = EstimateQuery(
    parkingLotId: Field<LotId>,
    startTime: Field<int>,
    endTime: Field<int>,
    vehicleType: Field<VehicleType>)

  datatype Estimate = Estimate(estimatedPrice: int, basePrice: int, factors: seq<Factor>)

  datatype EstimateError =
    | MissingParameters
    | InvalidLotId
    | InvalidTimes
    | InvalidVehicleType
    | LotNotFound
    | NoPriceTier

  predicate AnyAbsent(q: EstimateQuery) {
    q.parkingLotId.Absent? || q.startTime.Absent? || q.endTime.Absent? || q.vehicleType.Absent?
  }

  predicate TimesInvalid(q: EstimateQuery)
    requires !AnyAbsent(q)
  {
    q.startTime.Malformed? || q.endTime.Malformed? || q.endTime.value <= q.startTime.value
  }

  /** `estimatePrice`. `lots` is the `pricingTiers` of every stored lot; `startHour` and
      `startDay` are `start.getHours()` and `start.getDay()` in the server's time zone. */
  method EstimatePrice(q: EstimateQuery, lots: map<LotId, PricingTiers>, startHour: int, startDay: int)
    returns (r: Result<Estimate, EstimateError>)
    ensures AnyAbsent(q) ==> r == Err(MissingParameters)
    ensures !AnyAbsent(q) && q.parkingLotId.Malformed? ==> r == Err(InvalidLotId)
    ensures !AnyAbsent(q) && q.parkingLotId.Given? && TimesInvalid(q) ==> r == Err(InvalidTimes)
    ensures !AnyAbsent(q) && q.parkingLotId.Given? && !TimesInvalid(q) && q.vehicleType.Malformed? ==>
              r == Err(InvalidVehicleType)
    ensures (!AnyAbsent(q) && q.parkingLotId.Given? && !TimesInvalid(q) && q.vehicleType.Given?
             && q.parkingLotId.value !in lots) ==> r == Err(LotNotFound)
    ensures (!AnyAbsent(q) && q.parkingLotId.Given? && !TimesInvalid(q) && q.vehicleType.Given?
             && q.parkingLotId.value in lots
             && TierRate(lots[q.parkingLotId.value], Some(q.vehicleType.value)).None?) ==> r == Err(NoPriceTier)
    ensures r.Ok? <==>
      && !AnyAbsent(q) && q.parkingLotId.Given? && !TimesInvalid(q) && q.vehicleType.Given?
      && q.parkingLotId.value in lots
      && TierRate(lots[q.parkingLotId.value], Some(q.vehicleType.value)).Some?
    ensures r.Ok? ==>
      && q.parkingLotId.Given? && q.parkingLotId.value in lots && q.vehicleType.Given?
      && q.startTime.Given? && q.endTime.Given?
      && var rate := TierRate(lots[q.parkingLotId.value], Some(q.vehicleType.value));
      && r.value.basePrice == CalculateBasePrice(Some(q.startTime.value), Some(q.endTime.value), rate)
      && r.value.factors == [Surcharge(startDay, startHour)]
      && r.value.estimatedPrice
         == RoundToThousand(r.value.basePrice as real * Multiplier(Surcharge(startDay, startHour)))
  {
    if AnyAbsent(q) {
      return Err(MissingParameters);
    }
    if q.parkingLotId.Malformed? {
      return Err(InvalidLotId);
    }
    if TimesInvalid(q) {
      return Err(InvalidTimes);
    }
    if q.vehicleType.Malformed? {
      return Err(InvalidVehicleType);
    }
    var lotId := q.parkingLotId.value;
    if lotId !in lots {
      return Err(LotNotFound);
    }
    var tier := TierRate(lots[lotId], Some(q.vehicleType.value));
    if tier.None? {
      return Err(NoPriceTier);
    }
    var start, end := q.startTime.value, q.endTime.value;
    var basePrice := CalculateBasePrice(Some(start), Some(end), tier);

    var finalPrice: real := basePrice as real;
    var factors := [BasePriceFactor];
    var isWeekend := startDay == 0 || startDay == 6;
    var isPeakHour := startHour >= 17 && startHour <= 19;
    if isWeekend {
      finalPrice := basePrice as real * 1.2;
      factors := factors + [WeekendSurcharge];
      factors := WithoutBase(factors);
      WithoutLeadingBase(WeekendSurcharge);
    } else if isPeakHour {
      finalPrice := basePrice as real * 1.15;
      factors := factors + [PeakHourSurcharge];
      factors := WithoutBase(factors);
      WithoutLeadingBase(PeakHourSurcharge);
    }
    r := Ok(Estimate(RoundToThousand(finalPrice), basePrice, factors));
  }

  /** An estimate is never more than one surcharge above the base price, and never below it. */
  lemma EstimateBounds(basePrice: int, day: int, hour: int)
    requires basePrice >= 0
    ensures RoundToThousand(basePrice as real)
         <= RoundToThousand(basePrice as real * Multiplier(Surcharge(day, hour)))
         <= RoundToThousand(basePrice as real * 1.2)
  {
    var b := basePrice as real;
    match Surcharge(day, hour)
    case BasePriceFactor =>
      RoundToThousandMonotone(b, b * 1.2);
    case WeekendSurcharge =>
      RoundToThousandMonotone(b, b * 1.2);
    case PeakHourSurcharge =>
      RoundToThousandMonotone(b, b * 1.15);
      RoundToThousandMonotone(b * 1.15, b * 1.2);
  }
}
