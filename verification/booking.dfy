/** The booking record: its fields, defaults, validators, the pre-save time-window check and
    the `actualDurationMinutes` virtual. */
module Booking {
  import opened Common
  import Text
  import opened ParkingLot

  datatype BookingStatus = Pending | Confirmed | Active | Completed | Cancelled | Reserved | NoShow

  const DefaultStatus: BookingStatus := Confirmed

  datatype PaymentResult = PaymentResult(id: string, status: string)

  /** A stored booking. Times are integer milliseconds since the epoch. */
  datatype Booking = Booking(
    user: UserId,
    parkingLot: LotId,
    slot: Option<SlotId>,
    startTime: int,
    endTime: int,
    checkInTime: Option<int>,
    checkOutTime: Option<int>,
    totalPrice: int,
    vehicleNumber: Option<string>,
    vehicleType: VehicleType,
    status: BookingStatus,
    hasReview: bool,
    isPaid: bool,
    paidAt: Option<int>,
    paymentResult: Option<PaymentResult>)

  /** The fields handed to `new Booking({...})`; absent ones take defaults or fail `required`. */
  datatype BookingDraft = BookingDraft(
    user: Option<UserId>,
    parkingLot: Option<LotId>,
    startTime: Field<int>,
    endTime: Field<int>,
    totalPrice: Field<int>,
    vehicleNumber: Option<string>,
    vehicleType: Option<VehicleType>,
    status: Option<BookingStatus>,
    isPaid: bool,
    paidAt: Option<int>,
    paymentResult: Option<PaymentResult>)

  datatype SaveError = CastFailed | MissingRequired | NegativePrice | EndNotAfterStart

  /** The `vehicleNumber` setters: trimmed, then upper-cased. */
  function NormalizeVehicleNumber(s: string): (r: string)
    ensures r == Text.Trim(Text.ToUpper(s))
    ensures |r| <= |s|
  {
    Text.UpperTrimCommute(s);
    Text.ToUpper(Text.Trim(s))
  }

  /** Normalising a stored plate again leaves it as it is. */
  lemma NormalizeIdempotent(s: string)
    ensures NormalizeVehicleNumber(NormalizeVehicleNumber(s)) == NormalizeVehicleNumber(s)
  {
    var t := Text.Trim(s);
    Text.UpperTrimCommute(Text.ToUpper(t));
    Text.TrimIdempotent(Text.ToUpper(s));
    UpperIdempotent(t);
  }

  lemma UpperIdempotent(s: string)
    ensures Text.ToUpper(Text.ToUpper(s)) == Text.ToUpper(s)
  {
  }

  /** What the pre-save hook and the `min: 0` validator demand of every saved booking. */
  predicate Storable(b: Booking) {
    b.totalPrice >= 0 && b.endTime > b.startTime
  }

  /** Saving an already-built booking: validators first, then the pre-save time check. */
  function Save(b: Booking): (r: Result<Booking, SaveError>)
    ensures r.Ok? <==> Storable(b)
    ensures r.Ok? ==> r.value == b
    ensures r.Err? && b.totalPrice >= 0 ==> r.error == EndNotAfterStart
  {
    if b.totalPrice < 0 then Err(NegativePrice)
    else if b.endTime <= b.startTime then Err(EndNotAfterStart)
    else Ok(b)
  }

  /** `new Booking(draft).save()`: casting, `required`, `min`, the defaults, then the hook. */
  function Create(d: BookingDraft): (r: Result<Booking, SaveError>)
    ensures r.Ok? <==>
      && d.startTime.Given? && d.endTime.Given? && d.totalPrice.Given?
      && d.user.Some? && d.parkingLot.Some? && d.vehicleType.Some?
      && d.totalPrice.value >= 0 && d.endTime.value > d.startTime.value
    ensures d.vehicleType.None? ==> r.Err?
    ensures r.Ok? ==> Storable(r.value)
    ensures r.Ok? ==> r.value.status == d.status.GetOr(DefaultStatus)
    ensures r.Ok? ==> !r.value.hasReview && r.value.checkInTime.None? && r.value.checkOutTime.None?
    ensures r.Ok? ==> r.value.startTime == d.startTime.value && r.value.endTime == d.endTime.value
    ensures r.Ok? ==> r.value.totalPrice == d.totalPrice.value
    ensures r.Ok? ==> r.value.isPaid == d.isPaid && r.value.user == d.user.value
    ensures r.Ok? ==> r.value.parkingLot == d.parkingLot.value
    ensures r.Ok? && d.vehicleNumber.Some? ==>
              r.value.vehicleNumber == Some(NormalizeVehicleNumber(d.vehicleNumber.value))
  {
    if d.startTime.Malformed? || d.endTime.Malformed? || d.totalPrice.Malformed? then Err(CastFailed)
    else if d.startTime.Absent? || d.endTime.Absent? || d.totalPrice.Absent?
         || d.user.None? || d.parkingLot.None? || d.vehicleType.None? then Err(MissingRequired)
    else Save(FromDraft(d))
  }

  /** The document Mongoose builds from a complete draft, defaults filled in. */
  function FromDraft(d: BookingDraft): (b: Booking)
    requires d.startTime.Given? && d.endTime.Given? && d.totalPrice.Given?
    requires d.user.Some? && d.parkingLot.Some? && d.vehicleType.Some?
  {
    Booking(
      d.user.value, d.parkingLot.value, None,
      d.startTime.value, d.endTime.value, None, None,
      d.totalPrice.value,
      if d.vehicleNumber.Some? then Some(NormalizeVehicleNumber(d.vehicleNumber.value)) else None,
      d.vehicleType.value, d.status.GetOr(DefaultStatus),
      false, d.isPaid, d.paidAt, d.paymentResult)
  }

  /** `Math.round(ms / 60000)` for a non-negative duration (halves round up). */
  function RoundMinutes(ms: nat): (m: nat)
    ensures m * 60000 - 30000 <= ms < m * 60000 + 30000
  {
    (ms + 30000) / 60000
  }

  function Abs(x: int): nat { if x < 0 then -x else x }

  /** The `actualDurationMinutes` virtual: the check-in/check-out gap to the nearest minute,
      or nothing until both times are set. */
  function ActualDurationMinutes(b: Booking): (r: Option<nat>)
    ensures r.Some? <==> b.checkInTime.Some? && b.checkOutTime.Some?
    ensures r.Some? ==>
      var gap := Abs(b.checkOutTime.value - b.checkInTime.value);
      r.value * 60000 - 30000 <= gap < r.value * 60000 + 30000
  {
    if b.checkInTime.Some? && b.checkOutTime.Some? then
      Some(RoundMinutes(Abs(b.checkOutTime.value - b.checkInTime.value)))
    else None
  }

  /** The duration does not depend on which of the two times is the later one. */
  lemma DurationSymmetric(b: Booking)
    requires b.checkInTime.Some? && b.checkOutTime.Some?
    ensures ActualDurationMinutes(b)
         == ActualDurationMinutes(b.(checkInTime := b.checkOutTime, checkOutTime := b.checkInTime))
  {
  }

  /** The `bookings` collection. */
  class BookingTable {
    var rows: map<BookingId, Booking>

    /** Every stored booking passed the validators and the pre-save hook. */
    ghost predicate Valid()
      reads this
    {
      forall id :: id in rows ==> Storable(rows[id])
    }

    constructor ()
      ensures Valid() && rows == map[]
    {
      rows := map[];
    }

    /** Saving the booking `b` under `id`. */
    method Put(id: BookingId, b: Booking)
      requires Valid() && Storable(b)
      modifies this
      ensures Valid() && rows == old(rows)[id := b]
    {
      rows := rows[id := b];
    }
  }
}
