/** The cron job that completes expired bookings and gives their spots back to the lot counter. */
module ExpirySweep {
  import opened Common
  import opened Booking
  import opened PriceCalculator
  import opened LegacyBooking

  /** The query `{status: {$in: ['active', 'confirmed']}, endTime: {$lt: now}}`. */
  predicate Expired(b: Booking, now: int) {
    (b.status == Active || b.status == Confirmed) && b.endTime < now
  }

  function ExpiredIds(rows: map<BookingId, Booking>, now: int): (ids: set<BookingId>)
    ensures forall id :: id in ids <==> id in rows && Expired(rows[id], now)
  {
    set id | id in rows && Expired(rows[id], now)
  }

  /** The bookings among `ids` that belong to lot `lot`. */
  function SweptAt(rows: map<BookingId, Booking>, ids: set<BookingId>, lot: LotId): (r: set<BookingId>)
    ensures r <= ids
    ensures forall id :: id in r <==> id in ids && id in rows && rows[id].parkingLot == lot
  {
    set id | id in ids && id in rows && rows[id].parkingLot == lot
  }

  /** Sweeping one more booking adds one to the count of its own lot and nothing to the others. */
  lemma SweptAtAdd(rows: map<BookingId, Booking>, ids: set<BookingId>, id: BookingId, lot: LotId)
    requires id in rows && id !in ids
    ensures |SweptAt(rows, ids + {id}, lot)|
         == |SweptAt(rows, ids, lot)| + (if rows[id].parkingLot == lot then 1 else 0)
  {
    if rows[id].parkingLot == lot {
      assert SweptAt(rows, ids + {id}, lot) == SweptAt(rows, ids, lot) + {id};
    } else {
      assert SweptAt(rows, ids + {id}, lot) == SweptAt(rows, ids, lot);
    }
  }

  /** The bookings once those in `done` have been completed. */
  function RowsAfter(rows: map<BookingId, Booking>, done: set<BookingId>): (r: map<BookingId, Booking>)
    ensures r.Keys == rows.Keys
    ensures forall id :: id in rows ==>
      r[id] == (if id in done then rows[id].(status := Completed) else rows[id])
  {
    map id | id in rows :: if id in done then rows[id].(status := Completed) else rows[id]
  }

  /** The lot counters once the bookings in `done` have each given their spot back. */
  function LotsAfter(rows: map<BookingId, Booking>, lots: map<LotId, LotSnapshot>, done: set<BookingId>)
    : (r: map<LotId, LotSnapshot>)
    ensures r.Keys == lots.Keys
    ensures forall lot :: lot in lots ==>
      r[lot] == lots[lot].(availableSpots := lots[lot].availableSpots + |SweptAt(rows, done, lot)|)
  {
    map lot | lot in lots :: lots[lot].(availableSpots := lots[lot].availableSpots + |SweptAt(rows, done, lot)|)
  }

  lemma RowsAfterStep(rows: map<BookingId, Booking>, done: set<BookingId>, id: BookingId)
    requires id in rows && id !in done
    ensures RowsAfter(rows, done)[id := rows[id].(status := Completed)] == RowsAfter(rows, done + {id})
  {
  }

  lemma LotsAfterStep(rows: map<BookingId, Booking>, lots: map<LotId, LotSnapshot>,
                      done: set<BookingId>, id: BookingId)
    requires id in rows && id !in done
    ensures Bump(LotsAfter(rows, lots, done), rows[id].parkingLot, 1) == LotsAfter(rows, lots, done + {id})
  {
    var before, after := LotsAfter(rows, lots, done), LotsAfter(rows, lots, done + {id});
    forall lot | lot in lots
      ensures Bump(before, rows[id].parkingLot, 1)[lot] == after[lot]
    {
      SweptAtAdd(rows, done, id, lot);
    }
  }

  /** Completing bookings keeps every stored booking storable, so the sweep's saves never fail. */
  lemma RowsAfterStorable(rows: map<BookingId, Booking>, done: set<BookingId>)
    requires forall id :: id in rows ==> Storable(rows[id])
    ensures forall id :: id in RowsAfter(rows, done) ==> Storable(RowsAfter(rows, done)[id])
  {
  }

  lemma NothingSweptYet(rows: map<BookingId, Booking>, lots: map<LotId, LotSnapshot>)
    ensures RowsAfter(rows, {}) == rows && LotsAfter(rows, lots, {}) == lots
  {
    forall lot | lot in lots ensures SweptAt(rows, {}, lot) == {} { }
  }

  /** The loop over the query's result: complete each booking and give its lot one spot
      back, one booking at a time. */
  method SweepLoop(rows: map<BookingId, Booking>, lots: map<LotId, LotSnapshot>, now: int)
    returns (rows': map<BookingId, Booking>, lots': map<LotId, LotSnapshot>)
    ensures rows' == RowsAfter(rows, ExpiredIds(rows, now))
    ensures lots' == LotsAfter(rows, lots, ExpiredIds(rows, now))
  {
    rows', lots' := rows, lots;
    var remaining := ExpiredIds(rows, now);
    ghost var done: set<BookingId> := {};
    NothingSweptYet(rows, lots);
    while remaining != {}
      invariant remaining + done == ExpiredIds(rows, now) && remaining !! done
      invariant rows' == RowsAfter(rows, done)
      invariant lots' == LotsAfter(rows, lots, done)
      decreases |remaining|
    {
      var id :| id in remaining;
      var b := rows'[id];
      RowsAfterStep(rows, done, id);
      LotsAfterStep(rows, lots, done, id);
      rows' := rows'[id := b.(status := Completed)];
      lots' := Bump(lots', b.parkingLot, 1);
      remaining := remaining - {id};
      done := done + {id};
    }
  }

  /** The cron callback at time `now`: every expired booking becomes `completed`, each lot's
      counter rises by the number of its bookings so completed, and nothing else changes. */
  method Sweep(table: BookingTable, counters: LotCounters, now: int)
    requires table.Valid()
    modifies table, counters
    ensures table.Valid()
    ensures table.rows == RowsAfter(old(table.rows), ExpiredIds(old(table.rows), now))
    ensures counters.lots == LotsAfter(old(table.rows), old(counters.lots), ExpiredIds(old(table.rows), now))
    ensures ExpiredIds(table.rows, now) == {}
  {
    RowsAfterStorable(table.rows, ExpiredIds(table.rows, now));
    SweepLeavesNoneExpired(table.rows, now);
    table.rows, counters.lots := SweepLoop(table.rows, counters.lots, now);
  }

  /** After a sweep no booking matches the sweep's query any more. */
  lemma SweepLeavesNoneExpired(rows: map<BookingId, Booking>, now: int)
    ensures ExpiredIds(RowsAfter(rows, ExpiredIds(rows, now)), now) == {}
  {
    var after := RowsAfter(rows, ExpiredIds(rows, now));
    forall id | id in after ensures !Expired(after[id], now) { }
  }

  /** A booking whose end is `now` or later, or that is not active or confirmed, is left alone. */
  lemma NotExpiredUntouched(b: Booking, now: int)
    requires b.endTime >= now || (b.status != Active && b.status != Confirmed)
    ensures !Expired(b, now)
  {
  }
}
