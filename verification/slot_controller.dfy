/** The slot controller: status changes from admins and sensors (with the automatic check-out
    of the booking that held the slot), adding slots to a lot, and deleting one. */
module SlotController {
  import opened Common
  import opened ParkingLot
  import opened Booking
  import opened Pricing

  // ---------------------------------------------------------------- status transitions

  /** Which branch of `updateSlotStatus` a request takes. */
  datatype Branch = CheckIn | CheckOut | ToMaintenance | Reopen | Overwrite | NoChange

  function BranchOf(current: SlotStatus, requested: SlotStatus): (b: Branch)
    ensures b == CheckOut <==> current == Occupied && requested == Available
    ensures b == ToMaintenance <==> requested == Maintenance && current != Occupied
    ensures b == NoChange <==> requested == current && requested != Maintenance
  {
    if requested == Occupied && current == Available then CheckIn
    else if requested == Available && current == Occupied then CheckOut
    else if requested == Maintenance && current != Occupied then ToMaintenance
    else if requested == Available && current == Maintenance then Reopen
    else if requested != current then Overwrite
    else NoChange
  }

  /** The slot after the branch has run. Every branch ends in the requested status; only
      check-out and the maintenance branch let go of the booking. */
  function UpdatedSlot(s: Slot, requested: SlotStatus): (r: Slot)
    ensures r.status == requested
    ensures r.id == s.id && r.identifier == s.identifier && r.vehicleType == s.vehicleType
    ensures r.sensorId == s.sensorId
    ensures r.currentBooking ==
      (if BranchOf(s.status, requested) in {CheckOut, ToMaintenance} then None else s.currentBooking)
  {
    match BranchOf(s.status, requested)
    case CheckIn => s.(status := Occupied)
    case CheckOut => s.(status := Available, currentBooking := None)
    case ToMaintenance => s.(status := Maintenance, currentBooking := None)
    case Reopen => s.(status := Available)
    case Overwrite => s.(status := requested)
    case NoChange => s
  }

  /** Sending an occupied slot to maintenance takes the last branch and keeps its booking. */
  lemma OccupiedToMaintenanceKeepsBooking(s: Slot)
    requires s.status == Occupied
    ensures UpdatedSlot(s, Maintenance).currentBooking == s.currentBooking
  {
  }

  /** Repeating a status request changes nothing more, except that a second `maintenance`
      request on a slot the first one moved out of `occupied` also drops its booking. */
  lemma UpdatedSlotIdempotent(s: Slot, requested: SlotStatus)
    requires requested != Maintenance || s.status != Occupied
    ensures UpdatedSlot(UpdatedSlot(s, requested), requested) == UpdatedSlot(s, requested)
  {
  }

  /** The booking a check-out completes: the slot's booking, if it exists and is `active`. */
  function CheckoutBooking(rows: map<BookingId, Booking>, s: Slot, requested: SlotStatus): (r: Option<BookingId>)
    ensures r.Some? <==>
      && BranchOf(s.status, requested) == CheckOut && s.currentBooking.Some?
      && s.currentBooking.value in rows && rows[s.currentBooking.value].status == Active
    ensures r.Some? ==> r == s.currentBooking
  {
    if BranchOf(s.status, requested) == CheckOut && s.currentBooking.Some?
       && s.currentBooking.value in rows && rows[s.currentBooking.value].status == Active
    then s.currentBooking
    else None
  }

  /** Why an automatic check-out cannot be saved. */
  datatype CheckoutError = MissingTier | NotSaved(error: SaveError)

  /** The automatic check-out at time `now`: the booking ends now and is billed every started
      hour at its vehicle class's lot rate. */
  function CompleteOnCheckout(b: Booking, tiers: PricingTiers, now: int): (r: Result<Booking, CheckoutError>)
    ensures TierRate(tiers, Some(b.vehicleType)).None? ==> r == Err(MissingTier)
    ensures r.Ok? <==>
      && TierRate(tiers, Some(b.vehicleType)).Some?
      && now > b.startTime && TierRate(tiers, Some(b.vehicleType)).value >= 0
    ensures r.Ok? ==>
      && r.value == b.(status := Completed, endTime := now, totalPrice := r.value.totalPrice)
      && r.value.totalPrice
         == CalculateBasePrice(Some(b.startTime), Some(now), TierRate(tiers, Some(b.vehicleType)))
      && Storable(r.value)
  {
    var tier := TierRate(tiers, Some(b.vehicleType));
    if tier.None? then Err(MissingTier)
    else
      var hours := CeilHours(Abs(now - b.startTime));
      match Save(b.(status := Completed, endTime := now, totalPrice := hours * tier.value))
      case Ok(done) => Ok(done)
      case Err(e) => Err(NotSaved(e))
  }

  /** The checks `updateSlotStatus` makes before it writes: the index of the slot to update,
      or the reply it answers with instead. A `requested` status outside the enum is assigned
      by the last branch and fails the enum validator, hence the 500. */
  function UpdateGuard(requested: Field<SlotStatus>, parkingLotId: Field<LotId>, lotFound: bool,
                       slots: seq<Slot>, slotId: SlotId): (g: Result<nat, Reply>)
    ensures requested.Absent? || parkingLotId.Absent? ==> g == Err(BadRequest400)
    ensures !requested.Absent? && parkingLotId.Malformed? ==> g == Err(ServerError500)
    ensures !requested.Absent? && !parkingLotId.Absent? && !lotFound ==> g == Err(ServerError500)
    ensures lotFound && !requested.Absent? && !parkingLotId.Absent? && FindSlot(slots, slotId).None?
            ==> g == Err(ServerError500)
    ensures requested.Malformed? && !parkingLotId.Absent? ==> g == Err(ServerError500)
    ensures g.Ok? <==> requested.Given? && parkingLotId.Given? && lotFound && FindSlot(slots, slotId).Some?
    ensures g.Ok? ==> g.value == FindSlot(slots, slotId).value
    ensures g.Err? ==> g.error != Ok200
  {
    if requested.Absent? || parkingLotId.Absent? then Err(BadRequest400)
    else if parkingLotId.Malformed? || !lotFound then Err(ServerError500)
    else
      var found := FindSlot(slots, slotId);
      if found.None? || requested.Malformed? then Err(ServerError500)
      else Ok(found.value)
  }

  /** `updateSlotStatus`. `lot` is what `findById(parkingLotId)` returns (it matches only if its
      id is the one asked for); `now` is the check-out time. The transaction makes every
      failure leave both the lot and the bookings as they were. */
  method UpdateSlotStatus(lot: ParkingLotDoc?, table: BookingTable, parkingLotId: Field<LotId>,
                          slotId: SlotId, requested: Field<SlotStatus>, now: int)
    returns (r: Reply)
    requires lot != null ==> lot.Valid()
    requires table.Valid()
    modifies lot, table
    ensures lot != null ==> lot.Valid()
    ensures table.Valid()
    ensures requested.Absent? || parkingLotId.Absent? ==> r == BadRequest400
    ensures r != Ok200 ==> table.rows == old(table.rows)
    ensures r != Ok200 && lot != null ==> lot.slots == old(lot.slots) && lot.status == old(lot.status)
    ensures r == Ok200 <==>
      && requested.Given? && parkingLotId.Given?
      && lot != null && lot.id == parkingLotId.value
      && FindSlot(old(lot.slots), slotId).Some?
      && var s := old(lot.slots)[FindSlot(old(lot.slots), slotId).value];
         var target := CheckoutBooking(old(table.rows), s, requested.value);
         target.Some? ==> CompleteOnCheckout(old(table.rows)[target.value], old(lot.pricingTiers), now).Ok?
    ensures r == Ok200 ==>
      && var i := FindSlot(old(lot.slots), slotId).value;
         var s := old(lot.slots)[i];
         var target := CheckoutBooking(old(table.rows), s, requested.value);
      && lot.slots == old(lot.slots)[i := UpdatedSlot(s, requested.value)]
      && lot.slots[i].status == requested.value
      && lot.status == StatusAfterSave(old(lot.status), CountAvailable(lot.slots), lot.slots != old(lot.slots))
      && table.rows == (if target.Some?
                        then old(table.rows)[target.value :=
                               CompleteOnCheckout(old(table.rows)[target.value], old(lot.pricingTiers), now).value]
                        else old(table.rows))
    ensures lot != null ==>
      lot.rating == old(lot.rating) && lot.numReviews == old(lot.numReviews)
      && lot.pricingTiers == old(lot.pricingTiers)
  {
    var lotFound := parkingLotId.Given? && lot != null && lot.id == parkingLotId.value;
    var guard := UpdateGuard(requested, parkingLotId, lotFound, if lot != null then lot.slots else [], slotId);
    if guard.Err? {
      return guard.error;
    }
    var i := guard.value;
    var s := lot.slots[i];
    var target := CheckoutBooking(table.rows, s, requested.value);
    if target.Some? {
      var completed := CompleteOnCheckout(table.rows[target.value], lot.pricingTiers, now);
      if completed.Err? {
        return ServerError500;
      }
      table.Put(target.value, completed.value);
    }
    lot.SaveSlot(i, UpdatedSlot(s, requested.value));
    r := Ok200;
  }

  /** How `availableSpots` moves when one slot changes status. */
  lemma AvailableAfterUpdate(slots: seq<Slot>, i: nat, requested: SlotStatus)
    requires i < |slots|
    ensures CountAvailable(slots[i := UpdatedSlot(slots[i], requested)])
         == CountAvailable(slots) - Ind(slots[i].status == Available) + Ind(requested == Available)
  {
    CountUpdate(slots, i, UpdatedSlot(slots[i], requested), IsAvailable);
  }

  // ---------------------------------------------------------------- adding slots

  /** Casting the pushed inputs in order; None if any of them fails validation, since the
      save then rejects the whole push. */
  function CastAll(ids: seq<SlotId>, inputs: seq<SlotInput>): (r: Option<seq<Slot>>)
    requires |ids| == |inputs|
    ensures r.Some? <==> forall k :: 0 <= k < |inputs| ==> CastSlot(ids[k], inputs[k]).Some?
    ensures r.Some? ==> |r.value| == |inputs|
    ensures r.Some? ==> forall k :: 0 <= k < |inputs| ==> r.value[k] == CastSlot(ids[k], inputs[k]).value
  {
    if forall k :: 0 <= k < |inputs| ==> CastSlot(ids[k], inputs[k]).Some? then
      Some(seq(|inputs|, k requires 0 <= k < |inputs| => CastSlot(ids[k], inputs[k]).value))
    else None
  }

  predicate Fresh(slots: seq<Slot>, ids: seq<SlotId>) {
    && (forall j, k :: 0 <= j < k < |ids| ==> ids[j] != ids[k])
    && (forall j, k :: 0 <= j < |slots| && 0 <= k < |ids| ==> slots[j].id != ids[k])
  }

  lemma AppendDistinct(slots: seq<Slot>, added: seq<Slot>, ids: seq<SlotId>)
    requires DistinctIds(slots) && Fresh(slots, ids)
    requires |added| == |ids| && forall k :: 0 <= k < |ids| ==> added[k].id == ids[k]
    ensures DistinctIds(slots + added)
  {
    var all := slots + added;
    forall i, j | 0 <= i < j < |all| ensures all[i].id != all[j].id {
      if j >= |slots| && i >= |slots| {
        assert all[i].id == ids[i - |slots|] && all[j].id == ids[j - |slots|];
      } else if j >= |slots| {
        assert all[j].id == ids[j - |slots|];
      }
    }
  }

  /** What `addSlotsToParkingLot` decides for a lot holding `current` (`found` when `findById`
      matched): the reply, or the slots to save. */
  function AddSlotsPlan(found: bool, lotId: Field<LotId>, slots: Option<seq<SlotInput>>,
                        current: seq<Slot>, newIds: seq<SlotId>): (r: Result<seq<Slot>, Reply>)
    requires slots.Some? ==> |newIds| == |slots.value|
    ensures slots.None? || slots.value == [] ==> r == Err(BadRequest400)
    ensures slots.Some? && slots.value != [] && lotId.Malformed? ==> r == Err(ServerError500)
    ensures slots.Some? && slots.value != [] && !lotId.Malformed? && (!found || lotId.Absent?) ==>
              r == Err(NotFound404)
    ensures r.Ok? <==> slots.Some? && slots.value != [] && lotId.Given? && found
                       && CastAll(newIds, slots.value).Some?
    ensures r.Ok? ==>
      && r.value == current + CastAll(newIds, slots.value).value
      && |r.value| == |current| + |slots.value|
      && r.value[..|current|] == current
      && CountAvailable(r.value) == CountAvailable(current) + CountAvailable(CastAll(newIds, slots.value).value)
  {
    if slots.None? || slots.value == [] then Err(BadRequest400)
    else if lotId.Malformed? then Err(ServerError500)
    else if lotId.Absent? || !found then Err(NotFound404)
    else
      var added := CastAll(newIds, slots.value);
      if added.None? then Err(ServerError500)
      else
        CountAppend(current, added.value, IsAvailable);
        Ok(current + added.value)
  }

  lemma PlanKeepsDistinct(found: bool, lotId: Field<LotId>, slots: Option<seq<SlotInput>>,
                          current: seq<Slot>, newIds: seq<SlotId>)
    requires slots.Some? ==> |newIds| == |slots.value|
    requires DistinctIds(current) && Fresh(current, newIds)
    ensures AddSlotsPlan(found, lotId, slots, current, newIds).Ok? ==>
              DistinctIds(AddSlotsPlan(found, lotId, slots, current, newIds).value)
  {
    if AddSlotsPlan(found, lotId, slots, current, newIds).Ok? {
      AppendDistinct(current, CastAll(newIds, slots.value).value, newIds);
    }
  }

  /** `addSlotsToParkingLot`. `slots` is None when the body has no array; `newIds` are the
      sub-document ids Mongoose assigns to the pushed slots. */
  method AddSlotsToParkingLot(lot: ParkingLotDoc?, lotId: Field<LotId>, slots: Option<seq<SlotInput>>,
                              newIds: seq<SlotId>)
    returns (r: Reply)
    requires lot != null ==> lot.Valid()
    requires slots.Some? ==> |newIds| == |slots.value|
    requires lot != null ==> Fresh(lot.slots, newIds)
    modifies lot
    ensures lot != null ==> lot.Valid()
    ensures
      var plan := AddSlotsPlan(lot != null && lotId.Given? && lot.id == lotId.value, lotId, slots,
                               if lot != null then old(lot.slots) else [], newIds);
      && (plan.Err? ==> r == plan.error && (lot != null ==> lot.slots == old(lot.slots) && lot.status == old(lot.status)))
      && (plan.Ok? ==> r == Created201 && lot != null && lot.slots == plan.value
                       && lot.status == StatusAfterSave(old(lot.status), lot.AvailableSpots(), true))
    ensures lot != null ==>
      lot.rating == old(lot.rating) && lot.numReviews == old(lot.numReviews)
      && lot.pricingTiers == old(lot.pricingTiers)
  {
    var found := lot != null && lotId.Given? && lot.id == lotId.value;
    var plan := AddSlotsPlan(found, lotId, slots, if lot != null then lot.slots else [], newIds);
    if plan.Err? {
      return plan.error;
    }
    PlanKeepsDistinct(found, lotId, slots, lot.slots, newIds);
    lot.SaveSlots(plan.value);
    r := Created201;
  }

  // ---------------------------------------------------------------- deleting a slot

  /** What `deleteSlot` decides before it writes: the index of the slot to remove, or the
      reply it answers with instead. */
  function DeleteSlotPlan(found: bool, parkingLotId: Field<LotId>, slots: seq<Slot>, slotId: SlotId)
    : (p: Result<nat, Reply>)
    ensures parkingLotId.Malformed? ==> p == Err(ServerError500)
    ensures !parkingLotId.Malformed? && !found ==> p == Err(NotFound404)
    ensures !parkingLotId.Malformed? && found && FindSlot(slots, slotId).None? ==> p == Err(NotFound404)
    ensures !parkingLotId.Malformed? && found && FindSlot(slots, slotId).Some?
            && slots[FindSlot(slots, slotId).value].status in {Occupied, SlotStatus.Reserved}
            ==> p == Err(BadRequest400)
    ensures p.Ok? <==>
      found && !parkingLotId.Malformed? && FindSlot(slots, slotId).Some?
      && slots[FindSlot(slots, slotId).value].status !in {Occupied, SlotStatus.Reserved}
    ensures p.Ok? ==> p.value == FindSlot(slots, slotId).value
    ensures p.Err? ==> p.error != Ok200
  {
    if parkingLotId.Malformed? then Err(ServerError500)
    else if !found then Err(NotFound404)
    else
      var i := FindSlot(slots, slotId);
      if i.None? then Err(NotFound404)
      else if slots[i.value].status == Occupied || slots[i.value].status == SlotStatus.Reserved
      then Err(BadRequest400)
      else Ok(i.value)
  }

  /** `deleteSlot`: an occupied or reserved slot stays; any other is removed, and only it. */
  method DeleteSlot(lot: ParkingLotDoc?, parkingLotId: Field<LotId>, slotId: SlotId)
    returns (r: Reply)
    requires lot != null ==> lot.Valid()
    modifies lot
    ensures lot != null ==> lot.Valid()
    ensures parkingLotId.Malformed? ==> r == ServerError500
    ensures (!parkingLotId.Malformed? && (lot == null || !parkingLotId.Given? || lot.id != parkingLotId.value))
            ==> r == NotFound404
    ensures
      var plan := DeleteSlotPlan(parkingLotId.Given? && lot != null && lot.id == parkingLotId.value,
                                 parkingLotId, if lot != null then old(lot.slots) else [], slotId);
      plan.Err? ==> r == plan.error
    ensures r != Ok200 && lot != null ==> lot.slots == old(lot.slots) && lot.status == old(lot.status)
    ensures r == Ok200 <==>
      && parkingLotId.Given? && lot != null && lot.id == parkingLotId.value
      && FindSlot(old(lot.slots), slotId).Some?
      && old(lot.slots)[FindSlot(old(lot.slots), slotId).value].status !in {Occupied, SlotStatus.Reserved}
    ensures r == Ok200 ==>
      && var i := FindSlot(old(lot.slots), slotId).value;
      && lot.slots == old(lot.slots)[..i] + old(lot.slots)[i + 1..]
      && |lot.slots| == |old(lot.slots)| - 1
      && (forall j :: 0 <= j < |lot.slots| ==> lot.slots[j].id != slotId)
      && lot.AvailableSpots() == old(lot.AvailableSpots()) - Ind(old(lot.slots)[i].status == Available)
      && lot.status == StatusAfterSave(old(lot.status), CountAvailable(lot.slots), true)
    ensures lot != null ==>
      lot.rating == old(lot.rating) && lot.numReviews == old(lot.numReviews)
      && lot.pricingTiers == old(lot.pricingTiers)
  {
    var found := parkingLotId.Given? && lot != null && lot.id == parkingLotId.value;
    var plan := DeleteSlotPlan(found, parkingLotId, if lot != null then lot.slots else [], slotId);
    if plan.Err? {
      return plan.error;
    }
    var i := plan.value;
    var rest := lot.slots[..i] + lot.slots[i + 1..];
    RemoveKeepsOthers(lot.slots, i);
    CountRemove(lot.slots, i, IsAvailable);
    lot.SaveSlots(rest);
    r := Ok200;
  }

  /** Removing the slot at `i` keeps the other ids distinct and drops the only slot with its id. */
  lemma RemoveKeepsOthers(slots: seq<Slot>, i: nat)
    requires i < |slots| && DistinctIds(slots)
    ensures DistinctIds(slots[..i] + slots[i + 1..])
    ensures forall t :: t in slots[..i] + slots[i + 1..] ==> t.id != slots[i].id
  {
    var rest := slots[..i] + slots[i + 1..];
    assert forall j :: 0 <= j < |rest| ==> rest[j] == slots[if j < i then j else j + 1];
  }
}
