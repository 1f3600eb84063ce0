/** The MoMo payment controller: the guard before a payment request is sent, and the state
    change an instant payment notification (IPN) makes once its signature has been checked. */
module Payment {
  import opened Common
  import opened Booking
  import opened PriceCalculator
  import opened LegacyBooking

  /** `createMoMoPayment` up to the gateway call: the amount to charge, or the reply when the
      booking is missing or already paid. `lotIds` are the lots `populate` can find; a booking
      whose lot is gone makes the `parkingLot.name` read throw. */
  function PrepareMoMoPayment(rows: map<BookingId, Booking>, lotIds: set<LotId>,
                              bookingId: Field<BookingId>): (r: Result<int, Reply>)
    ensures bookingId.Malformed? ==> r == Err(ServerError500)
    ensures bookingId.Absent? ==> r == Err(BadRequest400)
    ensures bookingId.Given? && bookingId.value !in rows ==> r == Err(BadRequest400)
    ensures bookingId.Given? && bookingId.value in rows && rows[bookingId.value].isPaid ==>
              r == Err(BadRequest400)
    ensures r.Ok? <==>
      bookingId.Given? && bookingId.value in rows && !rows[bookingId.value].isPaid
      && rows[bookingId.value].parkingLot in lotIds
    ensures r.Ok? ==> r.value == rows[bookingId.value].totalPrice
  {
    match bookingId
    case Malformed => Err(ServerError500)
    case Absent => Err(BadRequest400)
    case Given(id) =>
      if id !in rows || rows[id].isPaid then Err(BadRequest400)
      else if rows[id].parkingLot !in lotIds then Err(ServerError500)
      else Ok(rows[id].totalPrice)
  }

  /** The bookings and the lot counters an IPN reads and writes. */
  datatype Ledger = Ledger(bookings: map<BookingId, Booking>, lots: map<LotId, LotSnapshot>)

  /** `resultCode === 0`: only the JSON number 0 means success. */
  predicate Succeeded(resultCode: Option<int>) { resultCode == Some(0) }

  /** The booking after a successful payment. */
  function MarkPaid(b: Booking, transId: string, message: string, now: int): (p: Booking)
    ensures p.isPaid && p.status == Confirmed && p.paidAt == Some(now)
    ensures p.startTime == b.startTime && p.endTime == b.endTime && p.totalPrice == b.totalPrice
    ensures p.user == b.user && p.parkingLot == b.parkingLot
  {
    b.(isPaid := true, paidAt := Some(now), status := Confirmed,
       paymentResult := Some(PaymentResult(transId, message)))
  }

  /** What a verified IPN does to the ledger, with the payment fields stored on the booking.
      `orderId` is None when the id names no booking. */
  function IpnEffect(s: Ledger, resultCode: Option<int>, orderId: Option<BookingId>,
                     transId: string, message: string, now: int): (r: Ledger)
    ensures r.bookings.Keys == s.bookings.Keys && r.lots.Keys == s.lots.Keys
    ensures orderId.None? || orderId.value !in s.bookings ==> r == s
    ensures !Succeeded(resultCode) ==> r.lots == s.lots
    ensures (Succeeded(resultCode) && orderId.Some? && orderId.value in s.bookings
             && s.bookings[orderId.value].isPaid) ==> r == s
    ensures forall id :: id in s.bookings && Some(id) != orderId ==> r.bookings[id] == s.bookings[id]
    ensures orderId.Some? && orderId.value in s.bookings && !Succeeded(resultCode) ==>
              r.bookings[orderId.value] == s.bookings[orderId.value].(status := Cancelled)
    ensures (orderId.Some? && orderId.value in s.bookings && Succeeded(resultCode)
             && !s.bookings[orderId.value].isPaid) ==>
              && r.bookings[orderId.value] == MarkPaid(s.bookings[orderId.value], transId, message, now)
              && r.lots == Bump(s.lots, s.bookings[orderId.value].parkingLot, -1)
  {
    if orderId.None? || orderId.value !in s.bookings then s
    else
      var id := orderId.value;
      var b := s.bookings[id];
      if Succeeded(resultCode) then
        if b.isPaid then s
        else Ledger(s.bookings[id := MarkPaid(b, transId, message, now)], Bump(s.lots, b.parkingLot, -1))
      else Ledger(s.bookings[id := b.(status := Cancelled)], s.lots)
  }

  /** A replayed success notification changes nothing: the first one marked the booking paid. */
  lemma IpnSuccessIdempotent(s: Ledger, orderId: Option<BookingId>, transId: string, message: string,
                             now: int, transId': string, message': string, now': int)
    ensures
      var once := IpnEffect(s, Some(0), orderId, transId, message, now);
      IpnEffect(once, Some(0), orderId, transId', message', now') == once
  {
    if orderId.Some? && orderId.value in s.bookings && !s.bookings[orderId.value].isPaid {
      var once := IpnEffect(s, Some(0), orderId, transId, message, now);
      assert once.bookings[orderId.value].isPaid;
    }
  }

  /** A success notification takes exactly one spot from the booking's lot, and only for a
      booking that was not yet paid. */
  lemma IpnSuccessTakesOneSpot(s: Ledger, id: BookingId, transId: string, message: string, now: int)
    requires id in s.bookings && s.bookings[id].parkingLot in s.lots
    ensures
      var lot := s.bookings[id].parkingLot;
      var r := IpnEffect(s, Some(0), Some(id), transId, message, now);
      r.lots[lot].availableSpots
        == s.lots[lot].availableSpots - (if s.bookings[id].isPaid then 0 else 1)
  {
  }

  /** Once a notification has paid a booking, no new payment can be started for it. */
  lemma PaidBookingNotChargeable(s: Ledger, id: BookingId, lotIds: set<LotId>, transId: string,
                                 message: string, now: int)
    requires id in s.bookings
    ensures
      var r := IpnEffect(s, Some(0), Some(id), transId, message, now);
      PrepareMoMoPayment(r.bookings, lotIds, Given(id)).Err?
  {
    var r := IpnEffect(s, Some(0), Some(id), transId, message, now);
    assert r.bookings[id].isPaid;
  }

  /** `handleMoMoIPN`. `signatureValid` is the outcome of comparing the HMAC-SHA256 signature;
      `orderId` Malformed is an id `findById` cannot cast. */
  method HandleMoMoIpn(table: BookingTable, counters: LotCounters, signatureValid: bool,
                       resultCode: Option<int>, orderId: Field<BookingId>, transId: string,
                       message: string, now: int)
    returns (r: Reply)
    requires table.Valid()
    modifies table, counters
    ensures table.Valid()
    ensures !signatureValid ==> r == BadRequest400
    ensures signatureValid && orderId.Malformed? ==> r == ServerError500
    ensures r != NoContent204 ==> table.rows == old(table.rows) && counters.lots == old(counters.lots)
    ensures r == NoContent204 <==> signatureValid && !orderId.Malformed?
    ensures r == NoContent204 ==>
      Ledger(table.rows, counters.lots)
        == IpnEffect(Ledger(old(table.rows), old(counters.lots)), resultCode,
                     if orderId.Given? then Some(orderId.value) else None, transId, message, now)
  {
    if !signatureValid {
      return BadRequest400;
    }
    if orderId.Malformed? {
      return ServerError500;
    }
    if resultCode == Some(0) {
      if orderId.Given? && orderId.value in table.rows && !table.rows[orderId.value].isPaid {
        var b := table.rows[orderId.value];
        table.rows := table.rows[orderId.value := MarkPaid(b, transId, message, now)];
        counters.lots := Bump(counters.lots, b.parkingLot, -1);
      }
    } else {
      if orderId.Given? && orderId.value in table.rows {
        var b := table.rows[orderId.value];
        table.rows := table.rows[orderId.value := b.(status := Cancelled)];
      }
    }
    r := NoContent204;
  }

  // ------------------------------------------------ the schema as written drops the payment fields

  /** What a saved booking keeps under the booking schema as written: `isPaid`, `paidAt` and
      `paymentResult` are not schema paths, so strict mode does not store them. */
  function Persisted(b: Booking): (p: Booking)
    ensures !p.isPaid && p.paidAt.None? && p.paymentResult.None?
    ensures p.status == b.status && p.parkingLot == b.parkingLot
  {
    b.(isPaid := false, paidAt := None, paymentResult := None)
  }

  /** The IPN against the schema as written: the paid booking is stored without its payment
      fields, so the `!booking.isPaid` guard passes again on every replay. */
  function IpnEffectAsWritten(s: Ledger, resultCode: Option<int>, orderId: Option<BookingId>,
                              transId: string, message: string, now: int): (r: Ledger)
    ensures r.bookings.Keys == s.bookings.Keys && r.lots.Keys == s.lots.Keys
    ensures orderId.None? || orderId.value !in s.bookings ==> r == s
  {
    if orderId.None? || orderId.value !in s.bookings then s
    else
      var id := orderId.value;
      var b := s.bookings[id];
      if Succeeded(resultCode) then
        if b.isPaid then s
        else Ledger(s.bookings[id := Persisted(MarkPaid(b, transId, message, now))],
                    Bump(s.lots, b.parkingLot, -1))
      else Ledger(s.bookings[id := Persisted(b.(status := Cancelled))], s.lots)
  }

  /** As written, a replayed success notification takes a second spot from the lot. */
  lemma IpnReplayAsWrittenTakesTwoSpots(s: Ledger, id: BookingId, transId: string, message: string, now: int)
    requires id in s.bookings && !s.bookings[id].isPaid && s.bookings[id].parkingLot in s.lots
    ensures
      var lot := s.bookings[id].parkingLot;
      var once := IpnEffectAsWritten(s, Some(0), Some(id), transId, message, now);
      var twice := IpnEffectAsWritten(once, Some(0), Some(id), transId, message, now);
      twice.lots[lot].availableSpots == s.lots[lot].availableSpots - 2
  {
    var lot := s.bookings[id].parkingLot;
    var once := IpnEffectAsWritten(s, Some(0), Some(id), transId, message, now);
    assert !once.bookings[id].isPaid && once.bookings[id].parkingLot == lot;
    assert once.lots[lot].availableSpots == s.lots[lot].availableSpots - 1;
  }

  /** As written, a booking that a success notification has paid can be charged again: the
      stored booking has no `isPaid`, so `createMoMoPayment` does not refuse it. */
  lemma PaidBookingChargeableAsWritten(s: Ledger, id: BookingId, lotIds: set<LotId>, transId: string,
                                       message: string, now: int)
    requires id in s.bookings && !s.bookings[id].isPaid && s.bookings[id].parkingLot in lotIds
    ensures
      var once := IpnEffectAsWritten(s, Some(0), Some(id), transId, message, now);
      && once.bookings[id].status == Confirmed
      && PrepareMoMoPayment(once.bookings, lotIds, Given(id)) == Ok(s.bookings[id].totalPrice)
  {
    var b := s.bookings[id];
    var once := IpnEffectAsWritten(s, Some(0), Some(id), transId, message, now);
    assert once.bookings[id] == Persisted(MarkPaid(b, transId, message, now));
  }
}
