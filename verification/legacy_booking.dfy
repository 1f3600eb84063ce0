/** The booking controller on the whole-lot `availableSpots` counter: create-and-pay, a user's
    own cancellation and an admin's status change. */
module LegacyBooking {
  import opened Common
  import opened ParkingLot
  import opened Booking
  import opened Pricing
  import opened PriceCalculator

  /** The lots as the legacy controllers see them: a stored `availableSpots` number that they
      move by one, plus the fields the dynamic price reads. */
  class LotCounters {
    var lots: map<LotId, LotSnapshot>

    constructor (lots: map<LotId, LotSnapshot>)
      ensures this.lots == lots
    {
      this.lots := lots;
    }
  }

  /** `parkingLot.availableSpots += delta; parkingLot.save()` behind `if (parkingLot)`. */
  function Bump(m: map<LotId, LotSnapshot>, id: LotId, delta: int): (r: map<LotId, LotSnapshot>)
    ensures r.Keys == m.Keys
    ensures id in m ==> r[id] == m[id].(availableSpots := m[id].availableSpots + delta)
    ensures forall k :: k in m && k != id ==> r[k] == m[k]
  {
    if id in m then m[id := m[id].(availableSpots := m[id].availableSpots + delta)] else m
  }

  /** Bumping up and then down (a booking made and then cancelled) restores the lots. */
  lemma BumpInverse(m: map<LotId, LotSnapshot>, id: LotId, delta: int)
    ensures Bump(Bump(m, id, delta), id, -delta) == m
  {
    if id in m {
      var r := Bump(Bump(m, id, delta), id, -delta);
      assert r[id] == m[id];
      assert forall k :: k in r <==> k in m;
      assert forall k :: k in m ==> r[k] == m[k];
    }
  }

  // ---------------------------------------------------------------- create and pay

  /** The body of `POST /api/bookings/create-and-pay`, with the fake card's verdict
      already decided (`cardAccepted`). */
  datatype CreateAndPayRequest = CreateAndPayRequest(
    parkingLotId: Field<LotId>,
    startTime: Field<int>,
    endTime: Field<int>,
    vehicleNumber: Option<string>,
    vehicleType: Option<VehicleType>,
    cardNumber: Option<string>)

  /** The first guard: a falsy lot id, time or card number. */
  predicate MissingFields(req: CreateAndPayRequest) {
    req.parkingLotId.Absent? || req.startTime.Absent? || req.endTime.Absent?
    || req.cardNumber.None? || req.cardNumber.value == ""
  }

  /** `end <= start` as JavaScript compares two dates: false when either is invalid. */
  predicate EndNotAfterStart(req: CreateAndPayRequest) {
    req.startTime.Given? && req.endTime.Given? && req.endTime.value <= req.startTime.value
  }

  /** `Math.ceil(|end - start| / 36e5) * dynamicPrice`; NaN (here Malformed) for an invalid date. */
  function BookingPrice(req: CreateAndPayRequest, dynamicPrice: int): (r: Field<int>)
    ensures r.Given? <==> req.startTime.Given? && req.endTime.Given?
    ensures r.Given? && req.endTime.value > req.startTime.value ==>
              r.value == CeilHours(req.endTime.value - req.startTime.value) * dynamicPrice
  {
    if req.startTime.Given? && req.endTime.Given? then
      Given(CeilHours(Abs(req.endTime.value - req.startTime.value)) * dynamicPrice)
    else Malformed
  }

  /** The fields handed to `new Booking(...)` once the fake payment has passed, with the
      vehicle type the schema requires taken from the request. `receipt` is the
      `fake_<Date.now()>` string. */
  function PaidDraft(req: CreateAndPayRequest, user: UserId, lotId: LotId, dynamicPrice: int,
                     now: int, receipt: string): (d: BookingDraft)
    ensures d.user == Some(user) && d.parkingLot == Some(lotId)
    ensures d.vehicleType == req.vehicleType
    ensures d.status == Some(Confirmed) && d.isPaid && d.paidAt == Some(now)
  {
    BookingDraft(
      Some(user), Some(lotId), req.startTime, req.endTime, BookingPrice(req, dynamicPrice),
      req.vehicleNumber, req.vehicleType, Some(Confirmed),
      true, Some(now), Some(PaymentResult(receipt, "COMPLETED")))
  }

  /** The draft exactly as `createAndPayBooking` writes it: `vehicleType` is never passed. */
  function PaidDraftAsWritten(req: CreateAndPayRequest, user: UserId, lotId: LotId, dynamicPrice: int,
                              now: int, receipt: string): (d: BookingDraft)
    ensures d.vehicleType.None?
    ensures d == PaidDraft(req, user, lotId, dynamicPrice, now, receipt).(vehicleType := None)
  {
    PaidDraft(req, user, lotId, dynamicPrice, now, receipt).(vehicleType := None)
  }

  /** As written, the booking save always fails `required` on `vehicleType`, even for a
      request that passes every guard and that the corrected draft stores. */
  lemma CreateAndPayAsWrittenAlwaysFails(req: CreateAndPayRequest, user: UserId, lotId: LotId,
                                         dynamicPrice: int, now: int, receipt: string)
    ensures Create(PaidDraftAsWritten(req, user, lotId, dynamicPrice, now, receipt)).Err?
  {
  }

  /** A concrete request the corrected draft stores and the as-written draft rejects. */
  lemma CreateAndPayAsWrittenWitness()
    ensures
      var req := CreateAndPayRequest(Given(7), Given(0), Given(HourMs), None, Some(Car4Seats), Some("4111"));
      && Create(PaidDraft(req, 1, 7, 10000, 0, "fake_0")).Ok?
      && Create(PaidDraftAsWritten(req, 1, 7, 10000, 0, "fake_0")) == Err(MissingRequired)
  {
    var req := CreateAndPayRequest(Given(7), Given(0), Given(HourMs), None, Some(Car4Seats), Some("4111"));
    assert CeilHours(HourMs) == 1;
  }

  /** `createAndPayBooking`, corrected to pass the vehicle type on. `hour` is the server's
      `getHours()`, `now` the payment time, `newId` the id Mongo assigns. */
  method CreateAndPay(table: BookingTable, counters: LotCounters, req: CreateAndPayRequest,
                      user: UserId, cardAccepted: bool, hour: int, now: int, receipt: string,
                      newId: BookingId)
    returns (r: Reply)
    requires table.Valid() && newId !in table.rows
    modifies table, counters
    ensures table.Valid()
    ensures MissingFields(req) ==> r == BadRequest400
    ensures !MissingFields(req) && req.parkingLotId.Malformed? ==> r == ServerError500
    ensures (!MissingFields(req) && req.parkingLotId.Given?
             && req.parkingLotId.value !in old(counters.lots)) ==> r == NotFound404
    ensures (!MissingFields(req) && req.parkingLotId.Given? && req.parkingLotId.value in old(counters.lots)
             && old(counters.lots)[req.parkingLotId.value].availableSpots <= 0) ==> r == BadRequest400
    ensures
      var lotReady := !MissingFields(req) && req.parkingLotId.Given? && req.parkingLotId.value in old(counters.lots)
                      && old(counters.lots)[req.parkingLotId.value].availableSpots > 0;
      && (lotReady && EndNotAfterStart(req) ==> r == BadRequest400)
      && (lotReady && !EndNotAfterStart(req) && !cardAccepted ==> r == BadRequest400)
      && ((lotReady && !EndNotAfterStart(req) && cardAccepted
           && Create(PaidDraft(req, user, req.parkingLotId.value,
                               CalculateDynamicPrice(Some(old(counters.lots)[req.parkingLotId.value]), hour),
                               now, receipt)).Err?)
          ==> r == ServerError500)
    ensures r != Created201 ==> table.rows == old(table.rows) && counters.lots == old(counters.lots)
    ensures r == Created201 <==>
      && !MissingFields(req) && req.parkingLotId.Given? && req.parkingLotId.value in old(counters.lots)
      && old(counters.lots)[req.parkingLotId.value].availableSpots > 0
      && !EndNotAfterStart(req) && cardAccepted
      && Create(PaidDraft(req, user, req.parkingLotId.value,
                          CalculateDynamicPrice(Some(old(counters.lots)[req.parkingLotId.value]), hour),
                          now, receipt)).Ok?
    ensures r == Created201 ==>
      var lotId := req.parkingLotId.value;
      var price := CalculateDynamicPrice(Some(old(counters.lots)[lotId]), hour);
      && table.rows == old(table.rows)[newId := Create(PaidDraft(req, user, lotId, price, now, receipt)).value]
      && counters.lots == Bump(old(counters.lots), lotId, -1)
      && table.rows[newId].status == Confirmed && table.rows[newId].isPaid
      && table.rows[newId].user == user && table.rows[newId].parkingLot == lotId
      && table.rows[newId].totalPrice == CeilHours(req.endTime.value - req.startTime.value) * price
  {
    if MissingFields(req) {
      return BadRequest400;
    }
    if req.parkingLotId.Malformed? {
      return ServerError500;
    }
    var lotId := req.parkingLotId.value;
    if lotId !in counters.lots {
      return NotFound404;
    }
    var lot := counters.lots[lotId];
    if lot.availableSpots <= 0 {
      return BadRequest400;
    }
    var dynamicPrice := CalculateDynamicPrice(Some(lot), hour);
    if EndNotAfterStart(req) {
      return BadRequest400;
    }
    if !cardAccepted {
      return BadRequest400;
    }
    var saved := Create(PaidDraft(req, user, lotId, dynamicPrice, now, receipt));
    if saved.Err? {
      return ServerError500;
    }
    table.rows := table.rows[newId := saved.value];
    counters.lots := Bump(counters.lots, lotId, -1);
    r := Created201;
  }

  // ---------------------------------------------------------------- user cancellation

  /** The statuses from which a user may no longer cancel. */
  predicate Uncancellable(s: BookingStatus) {
    s == Completed || s == Active || s == Cancelled
  }

  /** The statuses that hold a spot on the lot counter. */
  predicate HoldsSpot(s: BookingStatus) {
    s == Active || s == Confirmed
  }

  /** A status change keeps a stored booking storable: the validators and the pre-save hook
      only look at the price and the time window. */
  lemma StatusChangeStorable(b: Booking, s: BookingStatus)
    requires Storable(b)
    ensures Save(b.(status := s)) == Ok(b.(status := s))
  {
  }

  /** `cancelMyBooking` by user `user`. `id` is None for a path id that `findById` cannot
      cast, which throws and answers 500. */
  method CancelMyBooking(table: BookingTable, counters: LotCounters, id: Option<BookingId>, user: UserId)
    returns (r: Reply)
    requires table.Valid()
    modifies table, counters
    ensures table.Valid()
    ensures id.None? ==> r == ServerError500
    ensures id.Some? && id.value !in old(table.rows) ==> r == NotFound404
    ensures id.Some? && id.value in old(table.rows) && old(table.rows)[id.value].user != user ==> r == Unauthorized401
    ensures (id.Some? && id.value in old(table.rows) && old(table.rows)[id.value].user == user
             && Uncancellable(old(table.rows)[id.value].status)) ==> r == BadRequest400
    ensures r == Ok200 <==>
      id.Some? && id.value in old(table.rows) && old(table.rows)[id.value].user == user
      && !Uncancellable(old(table.rows)[id.value].status)
    ensures r != Ok200 ==> table.rows == old(table.rows) && counters.lots == old(counters.lots)
    ensures r == Ok200 ==>
      var b := old(table.rows)[id.value];
      && table.rows == old(table.rows)[id.value := b.(status := Cancelled)]
      && counters.lots == (if b.status == Confirmed then Bump(old(counters.lots), b.parkingLot, 1)
                           else old(counters.lots))
  {
    if id.None? {
      return ServerError500;
    }
    if id.value !in table.rows {
      return NotFound404;
    }
    var b := table.rows[id.value];
    if b.user != user {
      return Unauthorized401;
    }
    if Uncancellable(b.status) {
      return BadRequest400;
    }
    var oldStatus := b.status;
    StatusChangeStorable(b, Cancelled);
    table.Put(id.value, b.(status := Cancelled));
    if oldStatus == Confirmed || oldStatus == Active {
      counters.lots := Bump(counters.lots, b.parkingLot, 1);
    }
    r := Ok200;
  }

  // ---------------------------------------------------------------- admin status change

  /** The statuses an admin may set; `reserved` and `no-show` are stored values but not
      settable here. `None` stands for any other string. */
  predicate AdminSettable(s: Option<BookingStatus>) {
    s.Some? && s.value in {Pending, Confirmed, Active, Completed, Cancelled}
  }

  /** Whether an admin change from `from` to `to` gives a spot back. */
  predicate ReleasesSpot(from: BookingStatus, to: BookingStatus) {
    HoldsSpot(from) && (to == Cancelled || to == Completed)
  }

  /** `updateBookingStatusByAdmin`. `id` is None for a path id that `findById` cannot cast,
      which throws and answers 500. */
  method UpdateBookingStatusByAdmin(table: BookingTable, counters: LotCounters, id: Option<BookingId>,
                                    newStatus: Option<BookingStatus>)
    returns (r: Reply)
    requires table.Valid()
    modifies table, counters
    ensures table.Valid()
    ensures id.None? ==> r == ServerError500
    ensures id.Some? && id.value !in old(table.rows) ==> r == NotFound404
    ensures id.Some? && id.value in old(table.rows) && !AdminSettable(newStatus) ==> r == BadRequest400
    ensures r == Ok200 <==> id.Some? && id.value in old(table.rows) && AdminSettable(newStatus)
    ensures r != Ok200 ==> table.rows == old(table.rows) && counters.lots == old(counters.lots)
    ensures r == Ok200 ==>
      var b := old(table.rows)[id.value];
      && table.rows == old(table.rows)[id.value := b.(status := newStatus.value)]
      && counters.lots == (if ReleasesSpot(b.status, newStatus.value)
                           then Bump(old(counters.lots), b.parkingLot, 1)
                           else old(counters.lots))
  {
    if id.None? {
      return ServerError500;
    }
    if id.value !in table.rows {
      return NotFound404;
    }
    var b := table.rows[id.value];
    var oldStatus := b.status;
    if !AdminSettable(newStatus) {
      return BadRequest400;
    }
    StatusChangeStorable(b, newStatus.value);
    table.Put(id.value, b.(status := newStatus.value));
    if (oldStatus == Active || oldStatus == Confirmed)
       && (newStatus.value == Cancelled || newStatus.value == Completed) {
      counters.lots := Bump(counters.lots, b.parkingLot, 1);
    }
    r := Ok200;
  }
}
